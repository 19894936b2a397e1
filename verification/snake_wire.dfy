/** The snake_case wire variant (`src/data/json_wrapper.py`): keys such as
    `device_data` and `heigth_pixels`, a flat `sampled_points` list, and a
    permissive `from_str` that converts any value with `str()`. */
module SnakeWire {
  import opened Wrappers
  import opened JsonValue
  import opened Records
  import opened Combinators

  /** `from_str`: never fails; any value is converted with `str()`. */
  function FromStr(x: Json): (r: Result<string>)
    ensures r.Ok?
    ensures x.JStr? ==> r.value == x.s
    ensures x.JNull? ==> r.value == "None"
    ensures x.JInt? ==> r.value == IntToString(x.i)
  {
    Ok(PyStr(x))
  }

  function StrToJson(s: string): Json { JStr(s) }

  const CONFIGURATION_KEYS: seq<string> := ["guide_lines", "items", "repetitions", "repetitions_label", "title"]
  const DEVICE_DATA_KEYS: seq<string> :=
    ["device_finger_print", "device_model", "heigth_pixels", "width_pixels", "xdpi", "ydpi"]
  const SESSION_DATA_KEYS: seq<string> :=
    ["age", "configuration", "date", "device_data", "gender", "name", "surname"]
  const ITEM_DATA_KEYS: seq<string> :=
    ["date", "item", "item_index", "movement_points", "sampled_points", "session_data",
     "touch_down_points", "touch_up_points"]

  // ----- Configuration -----

  function ConfigurationFromDict(obj: Json): (r: Result<Configuration>)
    ensures r.Ok? <==>
      && obj.JObject?
      && Lookup(obj.members, "guide_lines").JBool?
      && Lookup(obj.members, "items").JArray?
      && Lookup(obj.members, "repetitions").JInt?
    ensures r.Ok? ==>
      && r.value.guideLines == Lookup(obj.members, "guide_lines").b
      && |r.value.items| == |Lookup(obj.members, "items").items|
      && (forall i :: 0 <= i < |r.value.items| ==> r.value.items[i] == PyStr(Lookup(obj.members, "items").items[i]))
      && r.value.repetitions == Lookup(obj.members, "repetitions").i
      && r.value.repetitionsLabel == PyStr(Lookup(obj.members, "repetitions_label"))
      && r.value.title == PyStr(Lookup(obj.members, "title"))
  {
    if !obj.JObject? then Err(AssertionError)
    else
      var guideLines :- FromBool(Lookup(obj.members, "guide_lines"));
      var items :- FromList(FromStr, Lookup(obj.members, "items"));
      var repetitions :- FromInt(Lookup(obj.members, "repetitions"));
      var repetitionsLabel := FromStr(Lookup(obj.members, "repetitions_label")).value;
      var title := FromStr(Lookup(obj.members, "title")).value;
      Ok(Configuration(guideLines, items, repetitions, repetitionsLabel, title))
  }

  function ConfigurationToDict(c: Configuration): (r: Json)
    ensures r.JObject? && Keys(r.members) == CONFIGURATION_KEYS
  {
    JObject([Member("guide_lines", JBool(c.guideLines)),
             Member("items", ToList(StrToJson, c.items)),
             Member("repetitions", JInt(c.repetitions)),
             Member("repetitions_label", JStr(c.repetitionsLabel)),
             Member("title", JStr(c.title))])
  }

  lemma ConfigurationRoundTrip(c: Configuration)
    ensures ConfigurationFromDict(ConfigurationToDict(c)) == Ok(c)
  {
    var ms := ConfigurationToDict(c).members;
    assert DistinctKeys(ms);
    LookupDistinct(ms, 0);
    LookupDistinct(ms, 1);
    LookupDistinct(ms, 2);
    LookupDistinct(ms, 3);
    LookupDistinct(ms, 4);
    ListRoundTrip(FromStr, StrToJson, c.items);
  }

  // ----- DeviceData -----

  function DeviceDataFromDict(obj: Json): (r: Result<DeviceData>)
    ensures r.Ok? <==>
      && obj.JObject?
      && Lookup(obj.members, "heigth_pixels").JInt?
      && Lookup(obj.members, "width_pixels").JInt?
      && (Lookup(obj.members, "xdpi").JInt? || Lookup(obj.members, "xdpi").JFloat?)
      && (Lookup(obj.members, "ydpi").JInt? || Lookup(obj.members, "ydpi").JFloat?)
    ensures r.Ok? ==>
      && r.value.deviceFingerPrint == PyStr(Lookup(obj.members, "device_finger_print"))
      && r.value.deviceModel == PyStr(Lookup(obj.members, "device_model"))
      && r.value.heigthPixels == Lookup(obj.members, "heigth_pixels").i
      && r.value.widthPixels == Lookup(obj.members, "width_pixels").i
      && r.value.xdpi == FromFloat(Lookup(obj.members, "xdpi")).value
      && r.value.ydpi == FromFloat(Lookup(obj.members, "ydpi")).value
  {
    if !obj.JObject? then Err(AssertionError)
    else
      var deviceFingerPrint := FromStr(Lookup(obj.members, "device_finger_print")).value;
      var deviceModel := FromStr(Lookup(obj.members, "device_model")).value;
      var heigthPixels :- FromInt(Lookup(obj.members, "heigth_pixels"));
      var widthPixels :- FromInt(Lookup(obj.members, "width_pixels"));
      var xdpi :- FromFloat(Lookup(obj.members, "xdpi"));
      var ydpi :- FromFloat(Lookup(obj.members, "ydpi"));
      Ok(DeviceData(deviceFingerPrint, deviceModel, heigthPixels, widthPixels, xdpi, ydpi))
  }

  function DeviceDataToDict(d: DeviceData): (r: Json)
    ensures r.JObject? && Keys(r.members) == DEVICE_DATA_KEYS
  {
    JObject([Member("device_finger_print", JStr(d.deviceFingerPrint)),
             Member("device_model", JStr(d.deviceModel)),
             Member("heigth_pixels", JInt(d.heigthPixels)),
             Member("width_pixels", JInt(d.widthPixels)),
             Member("xdpi", JFloat(d.xdpi)),
             Member("ydpi", JFloat(d.ydpi))])
  }

  lemma DeviceDataRoundTrip(d: DeviceData)
    ensures DeviceDataFromDict(DeviceDataToDict(d)) == Ok(d)
  {
    var ms := DeviceDataToDict(d).members;
    assert DistinctKeys(ms);
    LookupDistinct(ms, 0);
    LookupDistinct(ms, 1);
    LookupDistinct(ms, 2);
    LookupDistinct(ms, 3);
    LookupDistinct(ms, 4);
    LookupDistinct(ms, 5);
  }

  /** A device record missing its string fields still parses: they become "None". */
  lemma DeviceDataMissingStrings(h: int, w: int, xdpi: real, ydpi: real)
    ensures DeviceDataFromDict(JObject([Member("heigth_pixels", JInt(h)), Member("width_pixels", JInt(w)),
                                        Member("xdpi", JFloat(xdpi)), Member("ydpi", JFloat(ydpi))]))
            == Ok(DeviceData("None", "None", h, w, xdpi, ydpi))
  {
    var ms := [Member("heigth_pixels", JInt(h)), Member("width_pixels", JInt(w)),
               Member("xdpi", JFloat(xdpi)), Member("ydpi", JFloat(ydpi))];
    assert DistinctKeys(ms);
    LookupDistinct(ms, 0);
    LookupDistinct(ms, 1);
    LookupDistinct(ms, 2);
    LookupDistinct(ms, 3);
    assert Lookup(ms, "device_finger_print") == JNull;
    assert Lookup(ms, "device_model") == JNull;
  }

  // ----- SessionData -----

  function SessionDataFromDict(obj: Json): (r: Result<SessionData>)
    ensures r.Ok? <==>
      && obj.JObject?
      && Lookup(obj.members, "age").JInt?
      && ConfigurationFromDict(Lookup(obj.members, "configuration")).Ok?
      && DeviceDataFromDict(Lookup(obj.members, "device_data")).Ok?
    ensures r.Ok? ==>
      && r.value.age == Lookup(obj.members, "age").i
      && r.value.configuration == ConfigurationFromDict(Lookup(obj.members, "configuration")).value
      && r.value.deviceData == DeviceDataFromDict(Lookup(obj.members, "device_data")).value
      && r.value.name == PyStr(Lookup(obj.members, "name"))
      && r.value.surname == PyStr(Lookup(obj.members, "surname"))
      && r.value.date == PyStr(Lookup(obj.members, "date"))
      && r.value.gender == PyStr(Lookup(obj.members, "gender"))
  {
    if !obj.JObject? then Err(AssertionError)
    else
      var age :- FromInt(Lookup(obj.members, "age"));
      var configuration :- ConfigurationFromDict(Lookup(obj.members, "configuration"));
      var date := FromStr(Lookup(obj.members, "date")).value;
      var deviceData :- DeviceDataFromDict(Lookup(obj.members, "device_data"));
      var gender := FromStr(Lookup(obj.members, "gender")).value;
      var name := FromStr(Lookup(obj.members, "name")).value;
      var surname := FromStr(Lookup(obj.members, "surname")).value;
      Ok(SessionData(age, configuration, date, deviceData, gender, name, surname))
  }

  function SessionDataToDict(s: SessionData): (r: Json)
    ensures r.JObject? && Keys(r.members) == SESSION_DATA_KEYS
  {
    JObject([Member("age", JInt(s.age)),
             Member("configuration", ConfigurationToDict(s.configuration)),
             Member("date", JStr(s.date)),
             Member("device_data", DeviceDataToDict(s.deviceData)),
             Member("gender", JStr(s.gender)),
             Member("name", JStr(s.name)),
             Member("surname", JStr(s.surname))])
  }

  lemma SessionDataRoundTrip(s: SessionData)
    ensures SessionDataFromDict(SessionDataToDict(s)) == Ok(s)
  {
    SessionDataLookups(s);
    ConfigurationRoundTrip(s.configuration);
    DeviceDataRoundTrip(s.deviceData);
  }

  /** Each key of the written session data reads back its own field. */
  lemma SessionDataLookups(s: SessionData)
    ensures var ms := SessionDataToDict(s).members;
      && Lookup(ms, "age") == JInt(s.age)
      && Lookup(ms, "configuration") == ConfigurationToDict(s.configuration)
      && Lookup(ms, "date") == JStr(s.date)
      && Lookup(ms, "device_data") == DeviceDataToDict(s.deviceData)
      && Lookup(ms, "gender") == JStr(s.gender)
      && Lookup(ms, "name") == JStr(s.name)
      && Lookup(ms, "surname") == JStr(s.surname)
  {
    var ms := SessionDataToDict(s).members;
    assert DistinctKeys(ms);
    LookupDistinct(ms, 0);
    LookupDistinct(ms, 1);
    LookupDistinct(ms, 2);
    LookupDistinct(ms, 3);
    LookupDistinct(ms, 4);
    LookupDistinct(ms, 5);
    LookupDistinct(ms, 6);
  }

  // ----- ItemData -----

  /** `ItemData.from_dict` (and `item_data_from_dict`). */
  function ItemDataFromDict(obj: Json): Result<ItemData>
  {
    if !obj.JObject? then Err(AssertionError)
    else
      var date := FromStr(Lookup(obj.members, "date")).value;
      var item := FromStr(Lookup(obj.members, "item")).value;
      var itemIndex :- FromInt(Lookup(obj.members, "item_index"));
      var movementPoints :- FromList(PointFromDict, Lookup(obj.members, "movement_points"));
      var sampledPoints :- FromList(PointFromDict, Lookup(obj.members, "sampled_points"));
      var sessionData :- SessionDataFromDict(Lookup(obj.members, "session_data"));
      var touchDownPoints :- FromList(PointFromDict, Lookup(obj.members, "touch_down_points"));
      var touchUpPoints :- FromList(PointFromDict, Lookup(obj.members, "touch_up_points"));
      Ok(ItemData(date, item, itemIndex, movementPoints, sampledPoints, sessionData,
                  touchDownPoints, touchUpPoints))
  }

  /** `ItemData.from_dict` succeeds exactly when the document is an object whose
      index is an int and whose point lists, session data and their nested
      objects all parse; the record then holds the parsed fields. */
  lemma ItemDataFromDictResult(obj: Json)
    ensures ItemDataFromDict(obj).Ok? <==>
      && obj.JObject?
      && Lookup(obj.members, "item_index").JInt?
      && FromList(PointFromDict, Lookup(obj.members, "movement_points")).Ok?
      && FromList(PointFromDict, Lookup(obj.members, "sampled_points")).Ok?
      && SessionDataFromDict(Lookup(obj.members, "session_data")).Ok?
      && FromList(PointFromDict, Lookup(obj.members, "touch_down_points")).Ok?
      && FromList(PointFromDict, Lookup(obj.members, "touch_up_points")).Ok?
    ensures ItemDataFromDict(obj).Ok? ==>
      && ItemDataFromDict(obj).value.date == PyStr(Lookup(obj.members, "date"))
      && ItemDataFromDict(obj).value.sessionData == SessionDataFromDict(Lookup(obj.members, "session_data")).value
      && ItemDataFromDict(obj).value.item == PyStr(Lookup(obj.members, "item"))
      && ItemDataFromDict(obj).value.itemIndex == Lookup(obj.members, "item_index").i
      && ItemDataFromDict(obj).value.movementPoints == FromList(PointFromDict, Lookup(obj.members, "movement_points")).value
      && ItemDataFromDict(obj).value.sampledPoints == FromList(PointFromDict, Lookup(obj.members, "sampled_points")).value
      && ItemDataFromDict(obj).value.touchDownPoints == FromList(PointFromDict, Lookup(obj.members, "touch_down_points")).value
      && ItemDataFromDict(obj).value.touchUpPoints == FromList(PointFromDict, Lookup(obj.members, "touch_up_points")).value
  {
  }

  /** `ItemData.to_dict` (and `item_data_to_dict`). */
  function ItemDataToDict(d: ItemData): (r: Json)
    ensures r.JObject? && Keys(r.members) == ITEM_DATA_KEYS
  {
    JObject([Member("date", JStr(d.date)),
             Member("item", JStr(d.item)),
             Member("item_index", JInt(d.itemIndex)),
             Member("movement_points", ToList(PointToDict, d.movementPoints)),
             Member("sampled_points", ToList(PointToDict, d.sampledPoints)),
             Member("session_data", SessionDataToDict(d.sessionData)),
             Member("touch_down_points", ToList(PointToDict, d.touchDownPoints)),
             Member("touch_up_points", ToList(PointToDict, d.touchUpPoints))])
  }

  lemma PointsRoundTrip(ps: seq<Point>)
    ensures FromList(PointFromDict, ToList(PointToDict, ps)) == Ok(ps)
  {
    forall i | 0 <= i < |ps| ensures PointFromDict(PointToDict(ps[i])) == Ok(ps[i]) {
      PointRoundTrip(ps[i]);
    }
    ListRoundTrip(PointFromDict, PointToDict, ps);
  }

  lemma ItemDataToDictLookups(d: ItemData)
    ensures var ms := ItemDataToDict(d).members;
      && Lookup(ms, "date") == JStr(d.date)
      && Lookup(ms, "item") == JStr(d.item)
      && Lookup(ms, "item_index") == JInt(d.itemIndex)
      && Lookup(ms, "movement_points") == ToList(PointToDict, d.movementPoints)
      && Lookup(ms, "sampled_points") == ToList(PointToDict, d.sampledPoints)
      && Lookup(ms, "session_data") == SessionDataToDict(d.sessionData)
      && Lookup(ms, "touch_down_points") == ToList(PointToDict, d.touchDownPoints)
      && Lookup(ms, "touch_up_points") == ToList(PointToDict, d.touchUpPoints)
  {
    var ms := ItemDataToDict(d).members;
    assert DistinctKeys(ms);
    LookupDistinct(ms, 0);
    LookupDistinct(ms, 1);
    LookupDistinct(ms, 2);
    LookupDistinct(ms, 3);
    LookupDistinct(ms, 4);
    LookupDistinct(ms, 5);
    LookupDistinct(ms, 6);
    LookupDistinct(ms, 7);
  }

  lemma ItemDataRoundTrip(d: ItemData)
    ensures ItemDataFromDict(ItemDataToDict(d)) == Ok(d)
  {
    ItemDataToDictLookups(d);
    PointsRoundTrip(d.movementPoints);
    PointsRoundTrip(d.sampledPoints);
    PointsRoundTrip(d.touchDownPoints);
    PointsRoundTrip(d.touchUpPoints);
    SessionDataRoundTrip(d.sessionData);
  }

  /** For every document that parses, rendering the result and parsing it again gives the same record. */
  lemma ItemDataParsedRoundTrip(obj: Json)
    requires ItemDataFromDict(obj).Ok?
    ensures ItemDataFromDict(ItemDataToDict(ItemDataFromDict(obj).value)) == ItemDataFromDict(obj)
  {
    ItemDataRoundTrip(ItemDataFromDict(obj).value);
  }
}
