/** The camelCase wire variant (`src/json_wrapper.py`): keys such as
    `deviceData` and `heigthPixels`, `sampledPoints` as one list of points per
    stroke, and a strict `from_str` that accepts only strings. */
module CamelWire {
  import opened Wrappers
  import opened JsonValue
  import opened Records
  import opened Combinators

  /** `from_str`: accepts only a string; None (a missing field) is rejected. */
  function FromStr(x: Json): (r: Result<string>)
    ensures r.Ok? <==> x.JStr?
    ensures r.Ok? ==> r.value == x.s
  {
    if x.JStr? then Ok(x.s) else Err(AssertionError)
  }

  function StrToJson(s: string): Json { JStr(s) }

  const CONFIGURATION_KEYS: seq<string> := ["guide_lines", "items", "repetitions", "repetitions_label", "title"]
  const DEVICE_DATA_KEYS: seq<string> :=
    ["deviceFingerPrint", "deviceModel", "heigthPixels", "widthPixels", "xdpi", "ydpi"]
  const SESSION_DATA_KEYS: seq<string> :=
    ["age", "configuration", "date", "deviceData", "gender", "name", "surname"]
  const ITEM_DATA_KEYS: seq<string> :=
    ["date", "item", "item_index", "movementPoints", "sampledPoints", "sessionData",
     "touchDownPoints", "touchUpPoints"]

  // ----- Configuration (same keys as the snake_case variant, strict strings) -----

  function ConfigurationFromDict(obj: Json): (r: Result<Configuration>)
    ensures r.Ok? <==>
      && obj.JObject?
      && Lookup(obj.members, "guide_lines").JBool?
      && FromList(FromStr, Lookup(obj.members, "items")).Ok?
      && Lookup(obj.members, "repetitions").JInt?
      && Lookup(obj.members, "repetitions_label").JStr?
      && Lookup(obj.members, "title").JStr?
    ensures r.Ok? ==>
      && r.value.guideLines == Lookup(obj.members, "guide_lines").b
      && r.value.items == FromList(FromStr, Lookup(obj.members, "items")).value
      && r.value.repetitions == Lookup(obj.members, "repetitions").i
      && r.value.repetitionsLabel == Lookup(obj.members, "repetitions_label").s
      && r.value.title == Lookup(obj.members, "title").s
  {
    if !obj.JObject? then Err(AssertionError)
    else
      var guideLines :- FromBool(Lookup(obj.members, "guide_lines"));
      var items :- FromList(FromStr, Lookup(obj.members, "items"));
      var repetitions :- FromInt(Lookup(obj.members, "repetitions"));
      var repetitionsLabel :- FromStr(Lookup(obj.members, "repetitions_label"));
      var title :- FromStr(Lookup(obj.members, "title"));
      Ok(Configuration(guideLines, items, repetitions, repetitionsLabel, title))
  }

  function ConfigurationToDict(c: Configuration): (r: Json)
    ensures r.JObject? && Keys(r.members) == CONFIGURATION_KEYS
  {
    JObject([Member("guide_lines", JBool(c.guideLines)),
             Member("items", ToList(StrToJson, c.items)),
             Member("repetitions", JInt(c.repetitions)),
             Member("repetitions_label", JStr(c.repetitionsLabel)),
             Member("title", JStr(c.title))])
  }

  lemma ConfigurationRoundTrip(c: Configuration)
    ensures ConfigurationFromDict(ConfigurationToDict(c)) == Ok(c)
  {
    var ms := ConfigurationToDict(c).members;
    assert DistinctKeys(ms);
    LookupDistinct(ms, 0);
    LookupDistinct(ms, 1);
    LookupDistinct(ms, 2);
    LookupDistinct(ms, 3);
    LookupDistinct(ms, 4);
    ListRoundTrip(FromStr, StrToJson, c.items);
  }

  // ----- DeviceData -----

  function DeviceDataFromDict(obj: Json): (r: Result<DeviceData>)
    ensures r.Ok? <==>
      && obj.JObject?
      && Lookup(obj.members, "deviceFingerPrint").JStr?
      && Lookup(obj.members, "deviceModel").JStr?
      && Lookup(obj.members, "heigthPixels").JInt?
      && Lookup(obj.members, "widthPixels").JInt?
      && (Lookup(obj.members, "xdpi").JInt? || Lookup(obj.members, "xdpi").JFloat?)
      && (Lookup(obj.members, "ydpi").JInt? || Lookup(obj.members, "ydpi").JFloat?)
    ensures r.Ok? ==>
      && r.value.deviceFingerPrint == Lookup(obj.members, "deviceFingerPrint").s
      && r.value.deviceModel == Lookup(obj.members, "deviceModel").s
      && r.value.heigthPixels == Lookup(obj.members, "heigthPixels").i
      && r.value.widthPixels == Lookup(obj.members, "widthPixels").i
      && r.value.xdpi == FromFloat(Lookup(obj.members, "xdpi")).value
      && r.value.ydpi == FromFloat(Lookup(obj.members, "ydpi")).value
  {
    if !obj.JObject? then Err(AssertionError)
    else
      var deviceFingerPrint :- FromStr(Lookup(obj.members, "deviceFingerPrint"));
      var deviceModel :- FromStr(Lookup(obj.members, "deviceModel"));
      var heigthPixels :- FromInt(Lookup(obj.members, "heigthPixels"));
      var widthPixels :- FromInt(Lookup(obj.members, "widthPixels"));
      var xdpi :- FromFloat(Lookup(obj.members, "xdpi"));
      var ydpi :- FromFloat(Lookup(obj.members, "ydpi"));
      Ok(DeviceData(deviceFingerPrint, deviceModel, heigthPixels, widthPixels, xdpi, ydpi))
  }

  function DeviceDataToDict(d: DeviceData): (r: Json)
    ensures r.JObject? && Keys(r.members) == DEVICE_DATA_KEYS
  {
    JObject([Member("deviceFingerPrint", JStr(d.deviceFingerPrint)),
             Member("deviceModel", JStr(d.deviceModel)),
             Member("heigthPixels", JInt(d.heigthPixels)),
             Member("widthPixels", JInt(d.widthPixels)),
             Member("xdpi", JFloat(d.xdpi)),
             Member("ydpi", JFloat(d.ydpi))])
  }

  lemma DeviceDataRoundTrip(d: DeviceData)
    ensures DeviceDataFromDict(DeviceDataToDict(d)) == Ok(d)
  {
    var ms := DeviceDataToDict(d).members;
    assert DistinctKeys(ms);
    LookupDistinct(ms, 0);
    LookupDistinct(ms, 1);
    LookupDistinct(ms, 2);
    LookupDistinct(ms, 3);
    LookupDistinct(ms, 4);
    LookupDistinct(ms, 5);
  }

  /** A device record written with the snake_case keys is rejected: its
      camelCase string fields are missing, and `from_str(None)` fails. */
  lemma SnakeCaseDeviceRejected(d: DeviceData)
    ensures DeviceDataFromDict(JObject([Member("device_finger_print", JStr(d.deviceFingerPrint)),
                                        Member("device_model", JStr(d.deviceModel)),
                                        Member("heigth_pixels", JInt(d.heigthPixels)),
                                        Member("width_pixels", JInt(d.widthPixels)),
                                        Member("xdpi", JFloat(d.xdpi)),
                                        Member("ydpi", JFloat(d.ydpi))])).Err?
  {
    var ms := [Member("device_finger_print", JStr(d.deviceFingerPrint)),
               Member("device_model", JStr(d.deviceModel)),
               Member("heigth_pixels", JInt(d.heigthPixels)),
               Member("width_pixels", JInt(d.widthPixels)),
               Member("xdpi", JFloat(d.xdpi)),
               Member("ydpi", JFloat(d.ydpi))];
    assert forall i :: 0 <= i < |ms| ==> ms[i].key != "deviceFingerPrint";
  }

  // ----- SessionData -----

  function SessionDataFromDict(obj: Json): (r: Result<SessionData>)
    ensures r.Ok? <==>
      && obj.JObject?
      && Lookup(obj.members, "age").JInt?
      && ConfigurationFromDict(Lookup(obj.members, "configuration")).Ok?
      && Lookup(obj.members, "date").JStr?
      && DeviceDataFromDict(Lookup(obj.members, "deviceData")).Ok?
      && Lookup(obj.members, "gender").JStr?
      && Lookup(obj.members, "name").JStr?
      && Lookup(obj.members, "surname").JStr?
    ensures r.Ok? ==>
      && r.value.age == Lookup(obj.members, "age").i
      && r.value.configuration == ConfigurationFromDict(Lookup(obj.members, "configuration")).value
      && r.value.date == Lookup(obj.members, "date").s
      && r.value.deviceData == DeviceDataFromDict(Lookup(obj.members, "deviceData")).value
      && r.value.gender == Lookup(obj.members, "gender").s
      && r.value.name == Lookup(obj.members, "name").s
      && r.value.surname == Lookup(obj.members, "surname").s
  {
    if !obj.JObject? then Err(AssertionError)
    else
      var age :- FromInt(Lookup(obj.members, "age"));
      var configuration :- ConfigurationFromDict(Lookup(obj.members, "configuration"));
      var date :- FromStr(Lookup(obj.members, "date"));
      var deviceData :- DeviceDataFromDict(Lookup(obj.members, "deviceData"));
      var gender :- FromStr(Lookup(obj.members, "gender"));
      var name :- FromStr(Lookup(obj.members, "name"));
      var surname :- FromStr(Lookup(obj.members, "surname"));
      Ok(SessionData(age, configuration, date, deviceData, gender, name, surname))
  }

  function SessionDataToDict(s: SessionData): (r: Json)
    ensures r.JObject? && Keys(r.members) == SESSION_DATA_KEYS
  {
    JObject([Member("age", JInt(s.age)),
             Member("configuration", ConfigurationToDict(s.configuration)),
             Member("date", JStr(s.date)),
             Member("deviceData", DeviceDataToDict(s.deviceData)),
             Member("gender", JStr(s.gender)),
             Member("name", JStr(s.name)),
             Member("surname", JStr(s.surname))])
  }

  lemma SessionDataRoundTrip(s: SessionData)
    ensures SessionDataFromDict(SessionDataToDict(s)) == Ok(s)
  {
    SessionDataLookups(s);
    ConfigurationRoundTrip(s.configuration);
    DeviceDataRoundTrip(s.deviceData);
  }

  /** Each key of the written session data reads back its own field. */
  lemma SessionDataLookups(s: SessionData)
    ensures var ms := SessionDataToDict(s).members;
      && Lookup(ms, "age") == JInt(s.age)
      && Lookup(ms, "configuration") == ConfigurationToDict(s.configuration)
      && Lookup(ms, "date") == JStr(s.date)
      && Lookup(ms, "deviceData") == DeviceDataToDict(s.deviceData)
      && Lookup(ms, "gender") == JStr(s.gender)
      && Lookup(ms, "name") == JStr(s.name)
      && Lookup(ms, "surname") == JStr(s.surname)
  {
    var ms := SessionDataToDict(s).members;
    assert DistinctKeys(ms);
    LookupDistinct(ms, 0);
    LookupDistinct(ms, 1);
    LookupDistinct(ms, 2);
    LookupDistinct(ms, 3);
    LookupDistinct(ms, 4);
    LookupDistinct(ms, 5);
    LookupDistinct(ms, 6);
  }

  // ----- ItemDataJson -----

  /** `lambda x: from_list(Point.from_dict, x)`: one stroke of sampled points. */
  function StrokeFromJson(x: Json): (r: Result<seq<Point>>)
    ensures r == FromList(PointFromDict, x)
  {
    FromList(PointFromDict, x)
  }

  /** `lambda x: to_list(lambda x: to_class(Point, x), x)`. */
  function StrokeToJson(ps: seq<Point>): (r: Json)
    ensures StrokeFromJson(r) == Ok(ps)
  {
    PointsRoundTrip(ps);
    ToList(PointToDict, ps)
  }

  /** `ItemDataJson.from_dict` (and `itemdata_from_dict`). */
  function ItemDataFromDict(obj: Json): (r: Result<ItemDataJson>)
    ensures r.Ok? <==>
      && obj.JObject?
      && Lookup(obj.members, "date").JStr?
      && Lookup(obj.members, "item").JStr?
      && Lookup(obj.members, "item_index").JInt?
      && FromList(PointFromDict, Lookup(obj.members, "movementPoints")).Ok?
      && FromList(StrokeFromJson, Lookup(obj.members, "sampledPoints")).Ok?
      && SessionDataFromDict(Lookup(obj.members, "sessionData")).Ok?
      && FromList(PointFromDict, Lookup(obj.members, "touchDownPoints")).Ok?
      && FromList(PointFromDict, Lookup(obj.members, "touchUpPoints")).Ok?
    ensures r.Ok? ==>
      && r.value.date == Lookup(obj.members, "date").s
      && r.value.item == Lookup(obj.members, "item").s
      && r.value.itemIndex == Lookup(obj.members, "item_index").i
      && r.value.movementPoints == FromList(PointFromDict, Lookup(obj.members, "movementPoints")).value
      && r.value.sampledPoints == FromList(StrokeFromJson, Lookup(obj.members, "sampledPoints")).value
      && r.value.sessionData == SessionDataFromDict(Lookup(obj.members, "sessionData")).value
      && r.value.touchDownPoints == FromList(PointFromDict, Lookup(obj.members, "touchDownPoints")).value
      && r.value.touchUpPoints == FromList(PointFromDict, Lookup(obj.members, "touchUpPoints")).value
    ensures r.Ok? ==>
      var sampled := Lookup(obj.members, "sampledPoints");
      && |r.value.sampledPoints| == |sampled.items|
      && forall k :: 0 <= k < |sampled.items| ==>
           sampled.items[k].JArray? && |r.value.sampledPoints[k]| == |sampled.items[k].items|
  {
    if !obj.JObject? then Err(AssertionError)
    else
      var date :- FromStr(Lookup(obj.members, "date"));
      var item :- FromStr(Lookup(obj.members, "item"));
      var itemIndex :- FromInt(Lookup(obj.members, "item_index"));
      var movementPoints :- FromList(PointFromDict, Lookup(obj.members, "movementPoints"));
      var sampledPoints :- FromList(StrokeFromJson, Lookup(obj.members, "sampledPoints"));
      var sessionData :- SessionDataFromDict(Lookup(obj.members, "sessionData"));
      var touchDownPoints :- FromList(PointFromDict, Lookup(obj.members, "touchDownPoints"));
      var touchUpPoints :- FromList(PointFromDict, Lookup(obj.members, "touchUpPoints"));
      Ok(ItemDataJson(date, item, itemIndex, movementPoints, sampledPoints, sessionData,
                      touchDownPoints, touchUpPoints))
  }

  /** `ItemDataJson.to_dict` (and `itemdata_to_dict`). */
  function ItemDataToDict(d: ItemDataJson): (r: Json)
    ensures r.JObject? && Keys(r.members) == ITEM_DATA_KEYS
  {
    JObject([Member("date", JStr(d.date)),
             Member("item", JStr(d.item)),
             Member("item_index", JInt(d.itemIndex)),
             Member("movementPoints", ToList(PointToDict, d.movementPoints)),
             Member("sampledPoints", ToList(StrokeToJson, d.sampledPoints)),
             Member("sessionData", SessionDataToDict(d.sessionData)),
             Member("touchDownPoints", ToList(PointToDict, d.touchDownPoints)),
             Member("touchUpPoints", ToList(PointToDict, d.touchUpPoints))])
  }

  lemma PointsRoundTrip(ps: seq<Point>)
    ensures FromList(PointFromDict, ToList(PointToDict, ps)) == Ok(ps)
  {
    forall i | 0 <= i < |ps| ensures PointFromDict(PointToDict(ps[i])) == Ok(ps[i]) {
      PointRoundTrip(ps[i]);
    }
    ListRoundTrip(PointFromDict, PointToDict, ps);
  }

  lemma StrokesRoundTrip(ss: seq<seq<Point>>)
    ensures FromList(StrokeFromJson, ToList(StrokeToJson, ss)) == Ok(ss)
  {
    ListRoundTrip(StrokeFromJson, StrokeToJson, ss);
  }

  lemma ItemDataToDictLookups(d: ItemDataJson)
    ensures var ms := ItemDataToDict(d).members;
      && Lookup(ms, "date") == JStr(d.date)
      && Lookup(ms, "item") == JStr(d.item)
      && Lookup(ms, "item_index") == JInt(d.itemIndex)
      && Lookup(ms, "movementPoints") == ToList(PointToDict, d.movementPoints)
      && Lookup(ms, "sampledPoints") == ToList(StrokeToJson, d.sampledPoints)
      && Lookup(ms, "sessionData") == SessionDataToDict(d.sessionData)
      && Lookup(ms, "touchDownPoints") == ToList(PointToDict, d.touchDownPoints)
      && Lookup(ms, "touchUpPoints") == ToList(PointToDict, d.touchUpPoints)
  {
    var ms := ItemDataToDict(d).members;
    assert DistinctKeys(ms);
    LookupDistinct(ms, 0);
    LookupDistinct(ms, 1);
    LookupDistinct(ms, 2);
    LookupDistinct(ms, 3);
    LookupDistinct(ms, 4);
    LookupDistinct(ms, 5);
    LookupDistinct(ms, 6);
    LookupDistinct(ms, 7);
  }

  lemma ItemDataRoundTrip(d: ItemDataJson)
    ensures ItemDataFromDict(ItemDataToDict(d)) == Ok(d)
  {
    ItemDataToDictLookups(d);
    PointsRoundTrip(d.movementPoints);
    StrokesRoundTrip(d.sampledPoints);
    PointsRoundTrip(d.touchDownPoints);
    PointsRoundTrip(d.touchUpPoints);
    SessionDataRoundTrip(d.sessionData);
  }

  lemma ItemDataParsedRoundTrip(obj: Json)
    requires ItemDataFromDict(obj).Ok?
    ensures ItemDataFromDict(ItemDataToDict(ItemDataFromDict(obj).value)) == ItemDataFromDict(obj)
  {
    ItemDataRoundTrip(ItemDataFromDict(obj).value);
  }
}
