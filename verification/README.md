# Dynamic sketch recognizer: a verified model of its core

The dynamic sketch recognizer reads handwriting captures recorded on a touch
device. Each capture is a JSON document describing one written item: the
movement, touch-down, touch-up and sampled points, plus the session and device
that produced it. The pipeline works in these steps:

1. It ingests a dataset folder into point tables, one row per point, tagged
   with a dense observation id.
2. It splits those tables into training and test rows by observation id.
3. It ranks the classes of each test probe by predicted probability.
4. It scores the identification with a Cumulative Match Characteristic (CMC)
   curve.
5. It names every folder and file it writes with a small set of path
   builders.

This project models that core in Dafny and proves what each part promises.
It has one module per concern:

| module | file | what it models |
|---|---|---|
| `Wrappers` | wrappers.dfy | `Option`, `Result` and the Python exceptions the core can raise |
| `JsonValue` | json.dfy | the values `json.load` produces, `dict.get`, and Python's `str()` of them |
| `Records` | records.dfy | the typed capture records (`Point`, `Configuration`, `DeviceData`, `SessionData`, `ItemData`, `ItemDataJson`) |
| `Combinators` | combinators.dfy | the validator combinators shared by both JSON wrappers, and `Point` |
| `SnakeWire` | snake_wire.dfy | the snake_case wire format with permissive `from_str` and flat sampled points |
| `CamelWire` | camel_wire.dfy | the camelCase wire format with strict `from_str` and sampled points as strokes |
| `Text` | text.dfy | `atoi`, `natural_keys`, the natural sort of a listing, `uglify`, `prettify_name` |
| `Dicts` | dicts.dfy | `merge_dicts`, `flat_nested_dict`, `make_lists_values`, `init_dict` |
| `Normalize` | normalize.dfy | `min_max_normalization` and the plotter's `_normalization` |
| `Tables` | tables.dfy | point-table rows and the `isin` / `==` row filters |
| `Stores` | store.dfy | the fields of a data manager as one value, and how one capture extends them |
| `Ingestion` | ingest.dfy | the `DataManager` class: `_read_data`, `_add_itemdata`, `get_userid` |
| `Ranking` | ranking.dfy | the stable sort of the classes by decreasing probability |
| `Learner` | learner.dfy | `tseries_train_test_split` once ids are drawn, and the rankings of `evaluate` |
| `Cmc` | cmc.dfy | `cmc_curve` and its properties |
| `PathJoin` | pathjoin.dfy | `os.path.join` on POSIX paths |
| `Paths` | paths.dfy | `Paths`, `DataVisPaths`, `CachePaths`, `ResultsPaths` with the memoised time |
| `Constants` | constants.dfy | the series names and lists and the `BUILD_*` path lambdas of the constants file |

## Modelling choices

- **Ingestion state.** The data manager is a class. Its five per-capture
  lists and four point tables are `seq` fields, and each method states the
  new state through the function `Ingestion.Ingest` over a `Stores.Store`
  value. The properties of ingestion are lemmas about `Ingest`.
- **Points in the tables.** A point table is a sequence of rows. Each row
  holds the id, the time (absent for sampled points), component, x and y.
  The order of pandas columns is not modelled.
- **Python exceptions.** An `AssertionError`, a `ValueError` or a
  `ZeroDivisionError` becomes an `Err` of a `Result` carrying that error.
- **JSON objects.** An object is its member list in document order. A
  lookup returns the last member with the key, since `json.loads` keeps the
  last duplicate. A missing key gives `None`.
- **Which parser ingestion uses.** Both data managers call
  `jw.item_data_from_dict` and read `ItemData` fields, but both import
  `src.json_wrapper as jw` (src/data_manager.py:6, src/data_manager_re.py:9),
  and that camelCase module defines neither `item_data_from_dict` nor
  `ItemData`; only src/data/json_wrapper.py does. As written, neither
  module can be imported: src/data_manager.py:9 imports `FolderPaths` and
  `FilePaths`, which src/constants/paths_generator.py does not define, and
  the annotation `jw.ItemData` on `get_userid` (src/data_manager.py:159,
  src/data_manager_re.py:15) is evaluated when the class is defined and
  raises `AttributeError` there. The model follows the function the code
  calls by name, so ingestion parses with the snake_case module and its
  flat sampled points; the failing imports are not modelled.
- **`os.path.join`.** It is modelled on POSIX paths. A component that starts
  with '/' restarts the path, and a '/' is inserted only when the path so far
  does not end with one.
- **Inputs that stand in for the outside world.** The directory walk is an
  input list of directories, each with its file names and their decoded
  contents. The clock reading is a string parameter. The stratified draw of
  observation ids is an input.
- **The final CMC point.** The docstring of `cmc_curve`
  (src/evaluation/classification.py:49-50) promises a value of 1 at rank n
  when n equals the size of the gallery. The code stops one rank short of
  the gallery size, so the last value can be 0 (see Findings).

## Model

Some functions that model source code have no row of their own, because
the lemma rows below state what they compute:
- `Paths.DataVisualizationFolder`, `Paths.PicsFolder`, `Paths.AnimationFolder`
  and `Paths.VisualFolder` (src/constants/paths_generator.py:29-54) are
  covered by `Paths.VisualFile` and `Paths.VisualFileUnder`.
- `PathJoin.Join3` is covered by `PathJoin.Join3Under` and `Paths.JoinBareWhen`.
- `Ingestion.Parse`, `Ingestion.Ingest`, `Ingestion.Visits` and
  `Ingestion.DirVisits` are covered by the `Ingestion` lemmas, from
  `IngestOutcome` to `DirVisitsNames`.
- `SnakeWire.ItemDataFromDict` is covered by `SnakeWire.ItemDataFromDictResult`.
- `Learner.Grouped` is covered by `Learner.GroupedCount`,
  `Learner.GroupedProbes`, `Learner.GroupedSorted` and
  `Learner.GroupedArePrinted`.

| member | source | states |
|---|---|---|
| JsonValue.Lookup | src/data/json_wrapper.py:74-80 | `obj.get(key)` on a dict none of whose members carry the key is `None` |
| JsonValue.LookupDistinct | src/data/json_wrapper.py:100-107 | in a dict with distinct keys, `get` returns the value stored under the key |
| JsonValue.LookupIgnoresOtherKeys | src/data/json_wrapper.py:100-107 | members with other keys do not change what `get` returns for a key |
| JsonValue.Keys | src/data/json_wrapper.py:109-116 | the key list of a dict, one per member, in order |
| JsonValue.IntToString | src/data/json_wrapper.py:55-58 | `str(i)` of an int: its decimal digits, with a leading '-' exactly when negative |
| JsonValue.NatToString | src/data/json_wrapper.py:55-58 | the decimal text of a natural number: non-empty, made of the digits 0 to 9 |
| JsonValue.FloatToString | src/data/json_wrapper.py:55-58 | `str(x)` of a float starts with '-' when x is negative, followed by the integer part of its magnitude (so `str(-1.5)` starts with "-1") |
| JsonValue.FloatOfInt | src/data/json_wrapper.py:55-58 | a whole number prints as its int followed by ".0": `str(3.0) == "3.0"`, `str(-3.0) == "-3.0"` |
| JsonValue.FloatToStringNegate | src/data/json_wrapper.py:55-58 | `str(-x) == "-" + str(x)` for every positive x |
| JsonValue.PyStr | src/data/json_wrapper.py:55-58 | `str(v)`: a string is itself, an int its decimal text, a list is bracketed by '[' and ']', a dict by '{' and '}' |
| JsonValue.Repr | src/data/json_wrapper.py:55-58 | `repr(v)` of a string is the string between single quotes; of anything else it is `str(v)` |
| Combinators.FromInt | src/data/json_wrapper.py:16-18 | accepts exactly an int (a bool is rejected) and returns it; otherwise an AssertionError |
| Combinators.FromIntOpt | src/data/json_wrapper.py:76 | `from_int` as the first alternative of the time union: succeeds exactly on an int |
| Combinators.FromNone | src/data/json_wrapper.py:21-23 | accepts exactly `None` |
| Combinators.FromUnion | src/data/json_wrapper.py:26-32 | succeeds iff some parser succeeds, and then returns the result of the first one that does; otherwise an AssertionError |
| Combinators.FromFloat | src/data/json_wrapper.py:35-37 | accepts an int or a float but not a bool, and returns it as a float |
| Combinators.ToFloat | src/data/json_wrapper.py:40-42 | accepts exactly a float and returns it |
| Combinators.FromBool | src/data/json_wrapper.py:45-47 | accepts exactly a bool and returns it |
| Combinators.MapAll | src/data/json_wrapper.py:52 | the list comprehension succeeds iff every element parses, keeps length and order, and otherwise fails with the error of a failing element |
| Combinators.FromList | src/data/json_wrapper.py:50-52 | fails on a non-list; otherwise succeeds iff every element parses, giving a same-length list parsed element by element |
| Combinators.ToList | src/data/json_wrapper.py:84-86 | a list rendered element by element, same length |
| Combinators.ListRoundTrip | src/data/json_wrapper.py:50-52 | a list rendered by `g` parses back with `f` whenever each element does |
| Combinators.TimeFromJson | src/data/json_wrapper.py:76 | `Point.time` parses exactly from an int or `None`; an int is kept, `None` gives None, and any other value fails with `AssertionError` |
| Combinators.PointFromDict | src/data/json_wrapper.py:73-80 | succeeds iff the object has an int-or-None time, an int component and numeric x and y, and then carries the time, the component, and x and y as floats |
| Combinators.TimeToJson | src/data/json_wrapper.py:84 | the time is written so that `Point.from_dict` reads it back unchanged, None included |
| Combinators.PointToDict | src/data/json_wrapper.py:82-88 | writes exactly the keys time, component, x, y |
| Combinators.PointRoundTrip | src/data/json_wrapper.py:73-88 | `Point.from_dict(p.to_dict()) == p` for every point |
| SnakeWire.FromStr | src/data/json_wrapper.py:55-58 | never fails: a string is kept, None becomes "None", an int its decimal text |
| SnakeWire.ConfigurationFromDict | src/data/json_wrapper.py:99-107 | succeeds iff guide_lines is a bool, items a list and repetitions an int; guide_lines and repetitions are the stored values, each item and each label the `str()` of what is stored |
| SnakeWire.ConfigurationToDict | src/data/json_wrapper.py:109-116 | writes exactly the five configuration keys |
| SnakeWire.ConfigurationRoundTrip | src/data/json_wrapper.py:99-116 | `from_dict(to_dict(c)) == c` |
| SnakeWire.DeviceDataFromDict | src/data/json_wrapper.py:128-137 | succeeds iff heigth_pixels and width_pixels are ints and xdpi, ydpi numeric; the ints are kept, xdpi and ydpi become floats, string fields are `str()` of what is stored |
| SnakeWire.DeviceDataToDict | src/data/json_wrapper.py:139-147 | writes exactly the snake_case keys from_dict reads, e.g. heigth_pixels |
| SnakeWire.DeviceDataRoundTrip | src/data/json_wrapper.py:128-147 | `from_dict(to_dict(d)) == d` |
| SnakeWire.DeviceDataMissingStrings | src/data/json_wrapper.py:55-58 | a device record without its string fields parses, and they become "None" |
| SnakeWire.SessionDataFromDict | src/data/json_wrapper.py:160-170 | succeeds iff age is an int and the nested configuration and device_data parse; carries the stored age, the nested results and the `str()` of every string, gender included |
| SnakeWire.SessionDataToDict | src/data/json_wrapper.py:172-181 | writes exactly the session keys, including device_data |
| SnakeWire.SessionDataRoundTrip | src/data/json_wrapper.py:160-181 | `from_dict(to_dict(s)) == s` |
| SnakeWire.ItemDataFromDictResult | src/data/json_wrapper.py:195-206 | `item_data_from_dict` succeeds iff item_index is an int, the three point lists and the flat sampled_points parse, and session_data parses; the record carries exactly those values, the `str()` of date and item and the parsed session_data |
| SnakeWire.ItemDataToDict | src/data/json_wrapper.py:208-218 | writes exactly the eight snake_case item keys |
| SnakeWire.PointsRoundTrip | src/data/json_wrapper.py:195-218 | a rendered point list parses back to itself |
| SnakeWire.ItemDataToDictLookups | src/data/json_wrapper.py:208-218 | each key of the rendered item holds the rendering of the matching field |
| SnakeWire.ItemDataRoundTrip | src/data/json_wrapper.py:195-226 | `item_data_from_dict(item_data_to_dict(d)) == d` |
| SnakeWire.ItemDataParsedRoundTrip | src/data/json_wrapper.py:195-226 | for every document that parses, rendering the record and parsing it again gives the same record |
| CamelWire.FromStr | src/json_wrapper.py:55-57 | strict: succeeds exactly on a string, so a missing field fails |
| CamelWire.ConfigurationFromDict | src/json_wrapper.py:98-106 | succeeds iff guide_lines is a bool, items a list of strings, repetitions an int, and both labels strings; every field is the stored value |
| CamelWire.ConfigurationToDict | src/json_wrapper.py:108-115 | writes exactly the five configuration keys |
| CamelWire.ConfigurationRoundTrip | src/json_wrapper.py:98-115 | `from_dict(to_dict(c)) == c` |
| CamelWire.DeviceDataFromDict | src/json_wrapper.py:127-136 | succeeds iff the camelCase keys deviceFingerPrint, deviceModel hold strings, heigthPixels, widthPixels ints and xdpi, ydpi numbers; every field is the stored value, xdpi and ydpi as floats |
| CamelWire.DeviceDataToDict | src/json_wrapper.py:138-146 | writes exactly the camelCase keys from_dict reads |
| CamelWire.DeviceDataRoundTrip | src/json_wrapper.py:127-146 | `from_dict(to_dict(d)) == d` |
| CamelWire.SnakeCaseDeviceRejected | src/json_wrapper.py:130-133 | a device record written with snake_case keys is rejected |
| CamelWire.SessionDataFromDict | src/json_wrapper.py:159-169 | succeeds iff the strings are strings, age an int, and the nested deviceData and configuration parse; every field is the stored value or the nested parse |
| CamelWire.SessionDataToDict | src/json_wrapper.py:171-180 | writes exactly the camelCase session keys, including deviceData |
| CamelWire.SessionDataRoundTrip | src/json_wrapper.py:159-180 | `from_dict(to_dict(s)) == s` |
| CamelWire.ItemDataFromDict | src/json_wrapper.py:194-205 | succeeds iff every field parses under its camelCase key and sampledPoints is a list of lists of valid points; the result has one stroke per inner list, of the same length, and every field is the stored value or its parse |
| CamelWire.StrokeFromJson | src/json_wrapper.py:200 | one stroke is the list of points, each parsed with `Point.from_dict` |
| CamelWire.StrokeToJson | src/json_wrapper.py:212 | a rendered stroke parses back to itself |
| CamelWire.ItemDataToDict | src/json_wrapper.py:207-217 | writes exactly the eight camelCase item keys |
| CamelWire.PointsRoundTrip | src/json_wrapper.py:194-217 | a rendered point list parses back to itself |
| CamelWire.StrokesRoundTrip | src/json_wrapper.py:201-212 | a rendered list of strokes parses back to itself |
| CamelWire.ItemDataToDictLookups | src/json_wrapper.py:207-217 | each camelCase key of the rendered item holds the rendering of the matching field |
| CamelWire.ItemDataRoundTrip | src/json_wrapper.py:194-226 | `itemdata_from_dict(itemdata_to_dict(d)) == d` |
| CamelWire.ItemDataParsedRoundTrip | src/json_wrapper.py:194-226 | for every document that parses, rendering and parsing again gives the same record |
| Text.Atoi | src/utility/utils.py:96-97 | a number exactly for a non-empty digit string, and then the decimal value of its digits; otherwise the text unchanged |
| Text.DigitsLeadingZero | src/utility/utils.py:97 | a leading zero does not change the value of a digit string |
| Text.AtoiLeadingZero | src/utility/utils.py:96-97 | `atoi("0" + s) == atoi(s)` for a digit string, so `atoi("007") == 7` |
| Text.AtoiOfDecimal | src/utility/utils.py:96-97 | `atoi(str(n)) == n` for every natural number |
| Text.DigitRun | src/utility/utils.py:100-101 | the maximal run of digits at the start of a string |
| Text.SplitDigits | src/utility/utils.py:100-101 | `re.split('(\d+)', t)` has odd length |
| Text.SplitDigitsParts | src/utility/utils.py:100-101 | even parts hold no digit, odd parts are digit strings |
| Text.SplitDigitsMaximal | src/utility/utils.py:101 | digit runs are maximal: only the first and the last text part can be empty |
| Text.SplitDigitsJoin | src/utility/utils.py:100-101 | the parts concatenate back to the text |
| Text.NaturalKeys | src/utility/utils.py:100-101 | `natural_keys(t)` is `atoi` of each part of `re.split('(\d+)', t)`, in order: odd length, text at even positions (digit-free) and numbers at odd ones |
| Text.StrLess | src/utility/utils.py:101 | `<` on str: a proper prefix is smaller, and a string is never smaller than one of its prefixes (so never smaller than itself) |
| Text.PartLess | src/utility/utils.py:101 | `<` on key parts raises TypeError exactly when a str meets an int; two ints compare by value |
| Text.KeysLess | src/utility/utils.py:101 | `<` on key lists: only TypeError can be raised, a proper prefix is smaller, and a list is not smaller than itself or its prefixes |
| Text.NaturalKeysComparable | src/utility/utils.py:96-101 | comparing two natural keys never compares a str with an int |
| Text.KeysLessAsymmetric | src/utility/utils.py:96-101 | the key order is asymmetric |
| Text.StrLessTransitive | src/utility/utils.py:101 | `<` on str is transitive |
| Text.StrLessTotal | src/utility/utils.py:101 | two strings neither smaller than the other are equal |
| Text.KeysLessTransitive | src/utility/utils.py:96-101 | on natural keys, `<` is transitive |
| Text.KeysLessTotal | src/utility/utils.py:96-101 | two natural keys neither smaller than the other are equal |
| Text.NaturalLessTransitive | src/utility/utils.py:96-101 | sorting before is transitive on file names |
| Text.NaturalLessTotal | src/utility/utils.py:96-101 | names neither of which sorts before the other have equal keys |
| Text.NaturalOrderExample | src/utility/utils.py:96-101 | "f2" sorts before "f10" and not the other way round |
| Text.InsertNatural | src/data_manager.py:74 | inserting a name adds exactly that name to the listing |
| Text.NaturalSort | src/data_manager.py:74 | `sorted(files, key=natural_keys)` is a permutation of the listing, in natural-key order, and stable: names with equal keys keep their listing order |
| Text.InsertNaturalSorted | src/data_manager.py:74 | inserting into a sorted listing keeps it sorted |
| Text.InsertNaturalStable | src/data_manager.py:74 | an inserted name follows every name with the same key |
| Text.WithKeyConcat | src/data_manager.py:74 | the names with one key in a + b are those of a, then those of b |
| Text.AllAbove | src/data_manager.py:74 | in a sorted listing, a key below the first key is below all of them |
| Text.NoneWithKey | src/data_manager.py:74 | no name whose key is above x's has x's key |
| Text.LowerChar | src/utility/utils.py:191 | an upper-case letter maps to its lower-case letter (32 code points on); every other character is kept |
| Text.UpperChar | src/utility/utils.py:187 | a lower-case letter maps to its upper-case letter (32 code points back); every other character is kept |
| Text.Lower | src/utility/utils.py:191 | `s.lower()` lower-cases each character in place |
| Text.RemoveSpaces | src/utility/utils.py:191 | `"".join(s.split())` is no longer than s |
| Text.RemoveSpacesKeeps | src/utility/utils.py:191 | the result holds no whitespace and only characters of s |
| Text.RemoveSpacesConcat | src/utility/utils.py:191 | removing whitespace distributes over concatenation |
| Text.RemoveSpacesNone | src/utility/utils.py:191 | a string without whitespace is unchanged |
| Text.RemoveSpacesAll | src/utility/utils.py:191 | a string of whitespace becomes empty |
| Text.Uglify | src/utility/utils.py:190-191 | `uglify(t)` is t with its whitespace removed and then lower-cased; it holds no whitespace and no upper-case letter |
| Text.LowerRemoveSpaces | src/utility/utils.py:191 | lower-casing and removing whitespace commute |
| Text.IsSpaceExamples | src/utility/utils.py:191 | `str.isspace` holds for space, tab, newline, the no-break space and the ideographic space, but not for letters, '_' or the zero-width space |
| Text.UglifyIdempotent | src/constants.py:199-200 | `uglify(uglify(t)) == uglify(t)` |
| Text.UglifyIgnoresSpacing | src/utility/utils.py:190-191 | whitespace inserted anywhere does not change the result |
| Text.UnderscoresToSpaces | src/utility/utils.py:187 | `" ".join(s.split("_"))` replaces every '_' by ' ' and keeps every other character |
| Text.TitleFrom | src/utility/utils.py:187 | `str.title()` keeps the length |
| Text.TitleAt | src/utility/utils.py:187 | a letter is upper-cased after a non-letter and lower-cased after a letter; other characters are kept |
| Text.PrettifyName | src/utility/utils.py:186-187 | same length; every '_' becomes ' '; other non-letters are kept; each word starts upper-case and continues lower-case |
| Dicts.Put | src/utility/utils.py:116 | `d[k] = v`: keys stay distinct, k is added, k now maps to v and every other key keeps its value |
| Dicts.LookupConcat | src/utility/utils.py:113-120 | in `a + b` a key of b takes b's value, any other key a's |
| Dicts.PutAll | src/utility/utils.py:119 | `d.update(ms)` keeps keys distinct and adds the keys of ms |
| Dicts.LookupPutAll | src/utility/utils.py:119 | after `d.update(ms)` a key of ms has its value in ms and any other key its old value |
| Dicts.Leaves | src/utility/utils.py:113-120 | the non-dict values of a nested dict, in visiting order |
| Dicts.FlatNestedDict | src/utility/utils.py:113-120 | `flat_nested_dict(d)`: distinct keys, no dict values, a key for every leaf, and on collisions the last-visited leaf wins |
| Dicts.Wrap | src/utility/utils.py:125-126 | a non-list becomes a singleton list, a list is kept |
| Dicts.WrapValues | src/utility/utils.py:123-127 | same keys in the same order, every value the wrapping of the old one |
| Dicts.WrapValuesIdempotent | src/utility/utils.py:123-127 | wrapping twice is wrapping once, and list values are untouched |
| Dicts.Dict.constructor | src/utility/utils.py:123 | a dict holding the given distinct-key members |
| Dicts.Dict.MakeListsValues | src/utility/utils.py:123-127 | in place, the entries become their wrapped values |
| Dicts.ListPrefix | src/utility/utils.py:106-108 | how far the per-key list assertions get before the first failure |
| Dicts.MergedUpTo | src/utility/utils.py:105-109 | dict1 with the lists of its first keys extended by dict2's |
| Dicts.MergeDicts | src/utility/utils.py:104-110 | fails with AssertionError iff the key sets differ or some value is not a list; keys processed before the failure are extended in place; dict2 is unchanged |
| Dicts.MergedLookup | src/utility/utils.py:104-110 | after a successful merge every key holds dict1's old list followed by dict2's |
| Dicts.Nones | src/utility/utils.py:155 | `[None] * length` has max(length, 0) entries, all None |
| Dicts.InitDict | src/utility/utils.py:154-155 | every label, once, mapped to a list of `length` Nones |
| Normalize.Min | src/utility/utils.py:90 | `min(array)` is an element no larger than any other |
| Normalize.Max | src/utility/utils.py:91 | `max(array)` is an element no smaller than any other |
| Normalize.Rescale | src/utility/utils.py:92 | the rescaled list has the same length |
| Normalize.MinMaxNormalization | src/utility/utils.py:84-92 | fails with ValueError on an empty list and ZeroDivisionError on a zero range; otherwise a same-length list in [0, 1] |
| Normalize.MinMaxEndpoints | src/utility/utils.py:90-92 | the minimum maps to 0 and the maximum to 1 |
| Normalize.MinMaxOrder | src/utility/utils.py:92 | normalisation preserves and reflects the order of values |
| Normalize.RescaleInUnit | src/utility/utils.py:92 | values between lo and hi rescale into [0, 1] |
| Normalize.RescaleEnds | src/utility/utils.py:92 | lo rescales to 0 and hi to 1 |
| Normalize.Normalization | src/evaluation/plotter/classification_plotter.py:151-159 | fails only on an empty list; same length; a zero range returns the values unchanged; otherwise values in [0, 1] |
| Normalize.NormalizationAgrees | src/evaluation/plotter/classification_plotter.py:151-159 | agrees with `min_max_normalization` wherever the latter succeeds |
| Normalize.NormalizationEndpoints | src/evaluation/plotter/classification_plotter.py:157-159 | with a non-zero range min maps to 0 and max to 1; with a zero range every value is kept |
| Normalize.NormalizationOrder | src/evaluation/plotter/classification_plotter.py:159 | a <= b implies norm(a) <= norm(b) |
| Tables.Where | src/learner.py:141-142 | `table.loc[table[id].isin(ids)]` holds exactly the rows whose id is chosen |
| Tables.GetItemTseries | src/data_manager.py:167-177 | `get_item_tseries` holds exactly the rows whose id equals the item id |
| Tables.Positions | src/learner.py:141-142 | the positions of the selected rows, all within the table |
| Tables.WhereInOrder | src/learner.py:141-142 | the selection is the rows at an increasing list of positions, and a position is kept iff its row's id is chosen |
| Tables.WherePositions | src/learner.py:141-142 | the k-th selected row is the row at the k-th position |
| Tables.PositionsIncrease | src/learner.py:141-142 | the positions increase, so table order is kept |
| Tables.PositionsSelected | src/learner.py:141-142 | a position is listed iff its row's id is chosen |
| Tables.WhereConcat | src/learner.py:141-142 | selecting from a concatenation selects from each part |
| Tables.WhereUniform | src/data_manager.py:167-177 | a block of rows with one id is kept whole or dropped whole |
| Tables.WherePartition | src/learner.py:141-142 | with disjoint id sets the selections share no position, and together they are the selection of the union, with multiplicity |
| Tables.WhereNone | src/data_manager.py:167-177 | selecting ids no row carries yields nothing |
| Stores.Append | src/data_manager.py:86-125 | each list grows by the capture's entry at its end, and each table by the capture's rows |
| Tables.TimedRows | src/data_manager.py:92-100 | one row per point, in point order, carrying the observation id and the point's time, component, x and y |
| Tables.SampledRows | src/data_manager.py:119-125 | one row per sampled point, in point order, carrying the observation id and the point's component, x and y |
| Stores.AppendConsistent | src/data_manager.py:86-125 | appending one capture keeps the five lists aligned and every table equal to the rows of the captures in order |
| Stores.RowsOfIds | src/data_manager.py:92-125 | every row a capture adds carries its observation id |
| Stores.TableIds | src/data_manager.py:92-125 | every table row carries the id of one of the captures |
| Stores.TableSelect | src/data_manager.py:167-177 | with distinct ids, selecting one capture's id returns exactly that capture's rows, in point order |
| Stores.InitWithout | src/data_manager.py:92-125 | no row of the earlier captures carries the last capture's id |
| Ingestion.IngestibleIff | src/data_manager.py:14-76 | a file is ingested iff its name ends with ".json" and is not "configuration.json" |
| Ingestion.GetUserId | src/data_manager.py:158-165 | the current id is item, the item index, name and surname joined by "_", then "_(", the date and ")"; the older one is item, name, surname and date joined by "_" |
| Ingestion.DataManager.constructor | src/data_manager.py:19-55 | starts with empty lists and tables and the snake_case parser |
| Ingestion.DataManager.AddItemData | src/data_manager.py:82-125 | a document that fails to parse changes nothing and reports the error; otherwise one entry is appended to each list and the capture's rows to each table |
| Ingestion.DataManager.VisitFile | src/data_manager.py:75-79 | one file of a directory: a blacklisted or non-JSON name is skipped without using an id; an ingestible one is added under the current id, which then advances by one, and the state reached agrees with the ingestion of the whole remaining directory |
| Ingestion.DataManager.VisitDirectory | src/data_manager.py:73-79 | one directory of the walk is ingested so that the state reached agrees with the ingestion of the whole remaining walk |
| Ingestion.DataManager.ReadDirectory | src/data_manager.py:74-79 | the files of one directory are ingested in natural order, each id one more than the last |
| Ingestion.DataManager.ReadData | src/data_manager.py:67-80 | fails with AssertionError when the dataset folder is missing, and otherwise ingests the walk's selected files numbered from 0 |
| Ingestion.Range | src/data_manager.py:72-79 | the ids from, from+1, ... |
| Ingestion.Names | src/data_manager.py:90 | the file names of the visits, in order |
| Ingestion.Parsed | src/data_manager.py:84 | how many leading files parse before the first one that raises |
| Ingestion.Captures | src/data_manager.py:86 | the records of the first parsed files |
| Ingestion.IngestOutcome | src/data_manager.py:67-84 | reading succeeds iff every visited file parses, and otherwise reports the first file's error |
| Ingestion.IngestConcat | src/data_manager.py:72-79 | ingesting a + b ingests a, then b numbered on from a's last id, unless a failed |
| Ingestion.IngestStep | src/data_manager.py:73-79 | one directory of the walk, then the rest |
| Ingestion.VisitsSplit | src/data_manager.py:73 | the walk from one directory on is that directory's files, then the rest |
| Ingestion.DirVisitsSplit | src/data_manager.py:74-76 | the listing from one file on is that file if selected, then the rest |
| Ingestion.IngestFirst | src/data_manager.py:78-79 | one file: a failing parse stops reading; a good one is appended and the id goes up by one |
| Ingestion.IngestCaptures | src/data_manager.py:86 | the captures appended are the parsed files, in visiting order |
| Ingestion.IngestIds | src/data_manager.py:72-88 | the parsed files receive consecutive ids in visiting order |
| Ingestion.IngestNames | src/data_manager.py:90 | the file names are appended in visiting order |
| Ingestion.IngestTables | src/data_manager.py:92-125 | every table only grows at its end: earlier rows are unchanged |
| Ingestion.IngestConsistent | src/data_manager.py:86-125 | the five lists stay aligned and every table stays the rows of the captures |
| Ingestion.FreshIngest | src/data_manager.py:72-90 | from a fresh manager, when every file parses, the ids are 0 .. n-1 in visiting order, the names the visited ones and the captures the parsed files |
| Ingestion.FreshItemTseries | src/data_manager.py:167-177 | after reading, `get_item_tseries` with id k returns exactly capture k's points of that table, in order |
| Ingestion.FormatsDifferOnlyInUserIds | src/data_manager_re.py:70-128 | the two data managers ingest the same files into the same state and outcome, except for the user ids |
| Ingestion.VisitsSelected | src/data_manager.py:73-76 | a file is visited iff it is listed in a directory of the walk, passes the name filter, and carries that directory's content |
| Ingestion.DirVisitsSelected | src/data_manager.py:74-76 | within one directory, a file is visited iff listed and selected |
| Ingestion.DirVisitsInNaturalOrder | src/data_manager.py:74 | within one directory, files are visited in natural-key order |
| Ingestion.DirVisitsNames | src/data_manager.py:74-76 | the visited names are the selected names, in listing order |
| Ranking.Insert | src/learner.py:199-200 | inserting a class adds exactly that class |
| Ranking.Order | src/learner.py:199-200 | the ranking order holds every class index below n |
| Ranking.InsertSorted | src/learner.py:199-200 | insertion keeps the order sorted |
| Ranking.OrderSorted | src/learner.py:199-200 | each class precedes every class after it: higher probability first, ties in class order |
| Ranking.OrderIsPermutation | src/learner.py:199-200 | every class index appears exactly once |
| Ranking.Ranking | src/learner.py:199-200 | the ranking lists the classes in ranking order |
| Ranking.RankingSorted | src/learner.py:197-201 | each ranking is a permutation of the classes by non-increasing probability, ties keeping class order |
| Ranking.CountBefore | src/evaluation/classification.py:79-89 | how many classes precede a class in the sort |
| Ranking.CountIn | src/evaluation/classification.py:79-89 | how many entries of a list precede a class |
| Ranking.CountInInsert | src/evaluation/classification.py:79-89 | insertion adds one to that count exactly when the inserted class precedes |
| Ranking.CountInOrder | src/evaluation/classification.py:79-89 | in the ranking order, the count is the number of classes preceding |
| Ranking.CountInSorted | src/evaluation/classification.py:79-89 | in a sorted list, a class's count is its position |
| Ranking.CountInNone | src/evaluation/classification.py:79-89 | no entry precedes a class that precedes them all |
| Ranking.PositionInOrder | src/evaluation/classification.py:79-89 | a class sits at the position equal to the number of classes preceding it |
| Ranking.InTopK | src/evaluation/classification.py:85-88 | a class is among the first k iff fewer than k classes precede it |
| Learner.Ids | src/learner.py:141-142 | the ids of a list, as a set |
| Learner.TseriesTrainTestSplit | src/learner.py:136-145 | the train rows are exactly those with a train id, the test rows those with a test id; y is passed through; x frames have no columns and y's index |
| Learner.SplitInOrder | src/feature_manager.py:107-108 | each side keeps its rows in table order |
| Learner.SplitPartition | src/learner.py:141-142 | with disjoint draws no row goes to both sides, and together they hold the rows of either id set |
| Learner.Probes | src/learner.py:196 | `zip` pairs up as many probes as the shorter list |
| Learner.ProbesOf | src/learner.py:196-201 | the positions of the probes labelled y |
| Learner.Evaluate | src/learner.py:189-202 | a label is a key iff some probe carries it, and its value is the rankings of those probes, in probe order |
| Learner.GroupedCount | src/learner.py:196-201 | under label y there are as many rankings as probes labelled y |
| Learner.GroupedProbes | src/learner.py:196-201 | the k-th ranking under y belongs to the k-th probe labelled y |
| Learner.GroupedSorted | src/learner.py:197-201 | every stored ranking lists every class, by non-increasing probability |
| Learner.ProbeRankings | src/feature_manager.py:164-166 | for each probe, its label and its ranking, in probe order |
| Learner.GroupedArePrinted | src/feature_manager.py:164-166 | the rankings stored under y are the printed rankings of the probes labelled y |
| Cmc.IndexOf | src/evaluation/classification.py:72 | `np.where(classes == y)`: the first column holding y |
| Cmc.CountGreater | src/evaluation/classification.py:76 | the number of classes with a strictly higher probability, at most the number of classes |
| Cmc.Hits | src/evaluation/classification.py:69-77 | the hit count never exceeds the probe count |
| Cmc.Cms | src/evaluation/classification.py:92 | each score is a fraction in [0, 1] |
| Cmc.Scores | src/evaluation/classification.py:59-92 | one score per rank in rank order, each the hit fraction; ZeroDivisionError iff there is a rank and no probe |
| Cmc.CmcCurve | src/evaluation/classification.py:39-95 | ranks are exactly 1 .. len(classes)-1 with one score each; at most one class gives two empty lists; ZeroDivisionError iff more than one class and no probe |
| Cmc.HitsMonotone | src/evaluation/classification.py:76 | a hit at rank k is a hit at every later rank |
| Cmc.CmsNonDecreasing | src/evaluation/classification.py:76 | the scores never decrease with the rank |
| Cmc.CountGreaterZero | src/evaluation/classification.py:76 | no class outranks a value iff all are at most it |
| Cmc.CountGreaterAppend | src/evaluation/classification.py:76 | counting splits over a concatenation |
| Cmc.CountGreaterAll | src/evaluation/classification.py:76 | every class outranks a value iff all are strictly above it |
| Cmc.CountGreaterOthers | src/evaluation/classification.py:76 | at most the other classes outrank the true class, and all do iff each is strictly higher |
| Cmc.HitAtRankOne | src/evaluation/classification.py:52-77 | a probe is a hit at rank 1 iff no class has a strictly higher probability than its true class |
| Cmc.Recognized | src/evaluation/classification.py:52 | the number of probes recognised at the top, ties allowed |
| Cmc.HitsAtRankOne | src/evaluation/classification.py:52-77 | the hits at rank 1 are the recognised probes |
| Cmc.RecognitionRate | src/evaluation/classification.py:52-77 | the score at rank 1 is the recognition rate |
| Cmc.MissAtLastRank | src/evaluation/classification.py:61-77 | at rank len(classes)-1 a probe misses iff every other class is strictly more probable |
| Cmc.HitAtGallerySize | src/evaluation/classification.py:49-50 | every probe is a hit at rank len(classes) |
| Cmc.AllHitAtGallerySize | src/evaluation/classification.py:49-50 | at rank len(classes) every probe counts |
| Cmc.GreaterAreBefore | src/evaluation/classification.py:76-82 | the strictly higher classes precede the true class in the sort, and are exactly those when nothing ties it |
| Cmc.HitIffInRanking | src/evaluation/classification.py:76-89 | a class among the first k of the sorted ranking is a hit at k; without ties the converse holds |
| Cmc.TieCountsAsHit | src/evaluation/classification.py:76-89 | with a tie a probe can be a hit at rank 1 though the stable sort lists another class first |
| Cmc.LastValueCanBeZero | src/evaluation/classification.py:61 | with two classes the only score, at rank 1, can be 0 |
| Cmc.CmcCurveFull | src/evaluation/classification.py:49-50 | over ranks 1 .. len(classes), the last score is 1.0 |
| PathJoin.Join | src/constants/paths_generator.py:19 | `os.path.join(a, b)` ends with b; with b relative it lies under a, adding one '/' only when a is non-empty without a trailing '/'; an absolute b replaces a |
| PathJoin.Join3Under | src/constants/paths_generator.py:23 | a three-part join ends with its last part and lies under each prefix |
| PathJoin.JoinBare | src/constants/paths_generator.py:23 | bare relative components are separated by exactly one '/' |
| Paths.DatasetFolder | src/constants/paths_generator.py:17-19 | `dataset_folder(n)` lies under RES_FOLDER and is RES_FOLDER/n |
| Paths.OutputFolder | src/constants/paths_generator.py:21-23 | `output_folder(n) == "./outputs/" + n` |
| Paths.File | src/constants/paths_generator.py:57-61 | `file`, `cache_file`, `result_file`: folder/fname+ext when the subfolder is falsy, folder/subfolder/fname+ext otherwise |
| Paths.JoinBareWhen | src/constants/paths_generator.py:61 | the three-part join of bare relative names |
| Paths.VisualFile | src/constants/paths_generator.py:63-77 | a plot ends in ".png", a gif in ".gif" |
| Paths.VisualFileUnder | src/constants/paths_generator.py:26-77 | every visualisation file lies in the visualisation folder, itself in the output folder |
| Paths.CacheFolder | src/constants/paths_generator.py:81-83 | `cache_folder(n)` is "./" + CACHE_FOLDER_NAME + "/" + n |
| Paths.CacheFeatures | src/constants/paths_generator.py:91-93 | `features(n, f)` is f.pickle in CACHE_FEATURES in the cache folder |
| Paths.CacheLearner | src/constants/paths_generator.py:95-97 | `learner(n, f)` is f.pickle in CACHE_LEARNER in the cache folder |
| Paths.CacheFile | src/constants/paths_generator.py:85-89 | the cache file is folder/sub/fname.pickle |
| Paths.ResultsFolderAt | src/constants/paths_generator.py:111-114 | the results folder lies under the output folder |
| Paths.ResultFileAt | src/constants/paths_generator.py:116-140 | each result file ends with its name and extension and lies in the results folder |
| Paths.ResultsPaths.constructor | src/constants/paths_generator.py:102 | `TIME` starts as None |
| Paths.ResultsPaths.GetTime | src/constants/paths_generator.py:104-108 | the first call fixes the time to the clock; later calls return it |
| Paths.ResultsPaths.ResultsFolder | src/constants/paths_generator.py:111-114 | the results folder at the fixed time; the first call fixes the time to the clock's reading, later calls keep it |
| Paths.ResultsPaths.ResultFile | src/constants/paths_generator.py:122-140 | `cmc`, `classification_report`, `ranking`, `parameters`, `best_params` at the fixed time; the first call fixes the time to the clock's reading, later calls keep it |
| Paths.SameResultsFolder | src/constants/paths_generator.py:104-140 | two result files of one run share the results folder of the first call's time |
| Constants.GetShiftedPointsName | src/constants.py:87-90 | the name is the shift label, "_shifted_", then the series |
| Constants.ShiftedNameInjective | src/constants.py:90-102 | a name determines its series and its shift label of given length |
| Constants.SeriesLists | src/constants.py:76-142 | TIMED_POINTS is POINTS plus "time"; XY_SHIFTED_MOVEMENT_POINTS is "xy_shifted_movement_points"; the initial lists are the three timed tables then "sampled_points" |
| Constants.BuildDatasetFolder | src/constants.py:161 | "../res/" + name |
| Constants.BuildResFolder | src/constants.py:162 | "../res/" + name + "_res/" |
| Constants.BuildOutputFolder | src/constants.py:163 | "../outputs/output_" + name |
| Constants.BuildResultsFolder | src/constants.py:164 | the results folder lies under the output folder |
| Constants.BuildGeneratedFolder | src/constants.py:166 | "../res/" + name + "_res/generated/" |
| Constants.BuildCsvFolder | src/constants.py:167 | "../res/" + name + "_res/csv/" |
| Constants.BuildPicsFolder | src/constants.py:168 | lies under the output folder and ends with "pics/" |
| Constants.BuildFilePath | src/constants.py:170 | for a relative file name, the path is the base, a '/' unless the base already ends with one, then file + "_" + desc + ext; it lies under the base |
| Constants.PathsFun | src/constants.py:172-187 | pickles lie in the generated folder and CSV files in the csv folder, named "_dataframe" or "_features" plus the extension |

## Left out

- File and OS I/O is not modelled: `os.walk`, `open`, `json.load`, `os.path.isdir`, pickle and JSON saving, `mkdir` and CSV export. The walk, the decoded documents and the folder check are inputs.
- The clock reading of `time.strftime` is a parameter of `get_time` and of `BUILD_RESULTS_FOLDER`.
- The names that paths_generator.py imports but io_constants.py does not define are a parameter of type `Paths.IoNames`.
- The sklearn stratified draw and the tsfresh, SVC and grid-search pipeline are foreign code. The draw is an input to the split.
- The sklearn metric wrappers in classification.py are foreign code.
- Plotting and animation are not modelled. This includes `_generate_example_charts` and the `plot_*` functions.
- The singleton and pickle caches (`get_instance`) are global state around I/O.
- The chronometer is wall-clock timing and printing.
- The commented-out shift code is dead.
- `Ingestion.DataManager.constructor`: it does not call `_read_data` itself. Reading is the separate method `ReadData`, which takes the folder check and the walk as inputs.
- Point tables are sequences of rows. pandas column order, dtypes and the row index are not modelled.
- Python dicts in the utilities are member lists in insertion order. Aliasing of the returned dict with its argument is modelled only for `make_lists_values` and `merge_dicts`, which update the `Dicts.Dict` object in place.
- `Dicts.MergeDicts`: the lists inside the dicts are values. In Python, `dict1[key] += dict2[key]` (src/utility/utils.py:108) extends the list object in place, so a list that dict1 shares with dict2 or with another holder changes there too. The model does not capture that sharing, and its promise that dict2 is unchanged holds only when no list is shared.
- Python floats are `real`, so IEEE rounding is not modelled.
- `JsonValue.FloatToString`: it matches Python's `str()` only for whole numbers of magnitude below 1e16. A float with a fractional part keeps its sign and the integer part of its magnitude, and then a fixed marker instead of its fractional digits: -1.5 prints as "-1.~". Python writes `str(1e16)` as '1e+16', and the model writes '10000000000000000.0'. A `real` has no negative zero, so `str(-0.0) == '-0.0'` is not modelled either. The quoting of strings nested in lists and dicts is simplified as well.
- Case mapping covers ASCII letters only. `isspace` covers Python's full whitespace set.
- `Text.TitleAt`: a letter is a cased character only when it is ASCII, so a non-ASCII letter breaks a word. `Text.PrettifyName` therefore turns "maría" into "MaríA", where Python's `str.title()` gives "María". Accented Italian names are not prettified as Python does.
- `Text.IsDigit`: digits are ASCII '0' to '9'. Python's `\d` also matches other Unicode digits, and `int()` accepts only some of them: '²' is split out by `re.split` but `int('²')` raises ValueError. Names with non-ASCII digits are not modelled.
- `cmc_curve` requires distinct classes, one probability per class for each probe, and every true label among the classes. numpy's behaviour outside that is not modelled.
- `Constants.BuildPicsFolder`: states only that the folder lies under the output folder and ends with "pics/", not the full string.
- `Constants.PathsFun`: states the folder and the suffix of each path, not the full string.
- `Constants.BuildResultsFolder`: states only that the folder lies under the output folder.
- `Constants.SeriesLists`: does not state that the eight series names are distinct.
- `Dicts.FlatNestedDict`: states the keys and the value of each, not that keys appear in the order in which the walk first reaches them.
- `Dicts.InitDict`: states which keys the dict holds, not that they appear in the order of their first occurrence in the labels.
- `Learner.Evaluate`: the result is a Dafny `map`, so the order in which labels were first inserted into the dict is not kept.
- `Paths.ResultFileAt`: states the containing folder and the suffix, not the full string.
- `to_dict` is total. Dafny's types already guarantee what its validators check.
- The chart and results-plot path builders of constants.py (`BUILD_GIFS_*`, `BUILD_CHART*`, `BUILD_RESULTS_HAND_FOLDER`, `BUILD_RESULTS_PATH`) are not part of this model: they only name plot files.

## Findings

| source | as written | input that shows it | evidently intended | confidence | as-written member | corrected member |
|---|---|---|---|---|---|---|
| src/evaluation/classification.py:61 | the ranks run over `range(1, len(classes))`, so the curve stops at rank len(classes)-1 | two classes [0, 1], one probe of class 0 with probabilities [0.2, 0.8]: the only score is 0.0 | ranks 1 .. len(classes), as the docstring at lines 49-50 describes, ending at 1.0 | not executed; medium | Cmc.LastValueCanBeZero | Cmc.CmcCurveFull |
