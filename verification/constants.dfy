/** Names and path builders of the top-level constants file: the names of
    the shifted point series, the lists of series types, and the dataset,
    resource, output and data-frame paths built under `../res/` and `..`. */
module Constants {
  import opened PathJoin

  const MOVEMENT_POINTS: string := "movement_points"
  const TOUCH_DOWN_POINTS: string := "touch_down_points"
  const TOUCH_UP_POINTS: string := "touch_up_points"
  const SAMPLED_POINTS: string := "sampled_points"
  const TIME: string := "time"
  const COMPONENT: string := "component"
  const X: string := "x"
  const Y: string := "y"

  const POINTS: seq<string> := [COMPONENT, X, Y]
  const TIMED_POINTS: seq<string> := POINTS + [TIME]

  const SHIFT: string := "_shifted_"
  const XY: string := X + Y

  /** `GET_SHIFTED_POINTS_NAME(shift, x)`: the shift label, "_shifted_", the series. */
  function GetShiftedPointsName(shift: string, x: string): (r: string)
    ensures |r| == |shift| + |SHIFT| + |x|
    ensures r[..|shift|] == shift && r[|shift|..|shift| + |SHIFT|] == SHIFT && r[|shift| + |SHIFT|..] == x
  {
    shift + SHIFT + x
  }

  /** A name is built from one shift label and one series only: a shift label
      of a given length and the series are recovered from the name. */
  lemma ShiftedNameInjective(s1: string, x1: string, s2: string, x2: string)
    requires |s1| == |s2| && GetShiftedPointsName(s1, x1) == GetShiftedPointsName(s2, x2)
    ensures s1 == s2 && x1 == x2
  {
    var r := GetShiftedPointsName(s1, x1);
    assert s1 == r[..|s1|] == s2;
    assert x1 == r[|s1| + |SHIFT|..] == x2;
  }

  const X_SHIFTED_MOVEMENT_POINTS: string := GetShiftedPointsName(X, MOVEMENT_POINTS)
  const X_SHIFTED_TOUCH_DOWN_POINTS: string := GetShiftedPointsName(X, TOUCH_DOWN_POINTS)
  const X_SHIFTED_TOUCH_UP_POINTS: string := GetShiftedPointsName(X, TOUCH_UP_POINTS)
  const X_SHIFTED_SAMPLED_POINTS: string := GetShiftedPointsName(X, SAMPLED_POINTS)
  const Y_SHIFTED_MOVEMENT_POINTS: string := GetShiftedPointsName(Y, MOVEMENT_POINTS)
  const Y_SHIFTED_TOUCH_DOWN_POINTS: string := GetShiftedPointsName(Y, TOUCH_DOWN_POINTS)
  const Y_SHIFTED_TOUCH_UP_POINTS: string := GetShiftedPointsName(Y, TOUCH_UP_POINTS)
  const Y_SHIFTED_SAMPLED_POINTS: string := GetShiftedPointsName(Y, SAMPLED_POINTS)
  const XY_SHIFTED_MOVEMENT_POINTS: string := GetShiftedPointsName(XY, MOVEMENT_POINTS)
  const XY_SHIFTED_TOUCH_DOWN_POINTS: string := GetShiftedPointsName(XY, TOUCH_DOWN_POINTS)
  const XY_SHIFTED_TOUCH_UP_POINTS: string := GetShiftedPointsName(XY, TOUCH_UP_POINTS)
  const XY_SHIFTED_SAMPLED_POINTS: string := GetShiftedPointsName(XY, SAMPLED_POINTS)

  const INITIAL_TIMED_POINTS_SERIES_TYPE: seq<string> := [MOVEMENT_POINTS, TOUCH_DOWN_POINTS, TOUCH_UP_POINTS]
  const INITIAL_POINTS_SERIES_TYPE: seq<string> := INITIAL_TIMED_POINTS_SERIES_TYPE + [SAMPLED_POINTS]
  const TIMED_POINTS_SERIES_TYPE: seq<string> :=
    INITIAL_TIMED_POINTS_SERIES_TYPE + [XY_SHIFTED_MOVEMENT_POINTS, XY_SHIFTED_TOUCH_DOWN_POINTS, XY_SHIFTED_TOUCH_UP_POINTS]
  const POINTS_SERIES_TYPE: seq<string> := TIMED_POINTS_SERIES_TYPE + [SAMPLED_POINTS, XY_SHIFTED_SAMPLED_POINTS]

  /** The series lists: timed points add "time" to the point columns, and
      the initial series are the three timed tables then the sampled one. */
  lemma SeriesLists()
    ensures TIMED_POINTS == ["component", "x", "y", "time"]
    ensures XY_SHIFTED_MOVEMENT_POINTS == "xy_shifted_movement_points"
    ensures INITIAL_POINTS_SERIES_TYPE == ["movement_points", "touch_down_points", "touch_up_points", "sampled_points"]
    ensures |POINTS_SERIES_TYPE| == 8 && POINTS_SERIES_TYPE[..4] == TIMED_POINTS_SERIES_TYPE[..4]
  {
  }

  // ----- Path builders -----

  const ROOT_FOLDER: string := ".."
  const BASE_FOLDER: string := "../res/"
  const RES_SUFFIX: string := "_res/"
  const GENERATED_FOLDER: string := "generated/"
  const OUTPUT_FOLDER: string := "outputs"
  const CSV_FOLDER: string := "csv/"
  const PICS_FOLDER: string := "pics/"
  const DATAFRAME: string := "dataframe"
  const FEATURE: string := "features"
  const CSV_EXTENSION: string := ".csv"
  const PICKLE_EXTENSION: string := ".pickle"

  /** `BUILD_DATASET_FOLDER`: the base folder ends with a separator, so the
      name is appended directly. */
  function BuildDatasetFolder(datasetName: string): (r: string)
    ensures Relative(datasetName) ==> r == "../res/" + datasetName
  {
    Join(BASE_FOLDER, datasetName)
  }

  /** `BUILD_RES_FOLDER`: the dataset folder of the name with "_res/" appended. */
  function BuildResFolder(datasetName: string): (r: string)
    ensures Relative(datasetName) ==> r == "../res/" + datasetName + "_res/"
  {
    assert Relative(datasetName) ==> Relative(datasetName + RES_SUFFIX) by {
      if |datasetName| > 0 {
        assert (datasetName + RES_SUFFIX)[0] == datasetName[0];
      }
    }
    BuildDatasetFolder(datasetName + RES_SUFFIX)
  }

  /** `BUILD_OUTPUT_FOLDER`. */
  function BuildOutputFolder(datasetName: string): (r: string)
    ensures r == "../outputs/output_" + datasetName
  {
    var outputs := Join(ROOT_FOLDER, OUTPUT_FOLDER);
    assert outputs == "../outputs" by {
      assert Bare(ROOT_FOLDER) && Relative(OUTPUT_FOLDER);
    }
    var name := "output_" + datasetName;
    assert Bare(outputs) && Relative(name) by {
      assert name[0] == 'o';
    }
    Join(outputs, name)
  }

  /** `BUILD_RESULTS_FOLDER`, with the formatted clock as a parameter. */
  function BuildResultsFolder(datasetName: string, clock: string): (r: string)
    ensures Relative(clock) ==> Under(r, BuildOutputFolder(datasetName))
  {
    Join(BuildOutputFolder(datasetName), clock)
  }

  /** `BUILD_GENERATED_FOLDER`, `BUILD_CSV_FOLDER`, `BUILD_PICS_FOLDER`. */
  function BuildGeneratedFolder(datasetName: string): (r: string)
    ensures Relative(datasetName) ==> r == "../res/" + datasetName + "_res/generated/"
  {
    NotBareConcat(BASE_FOLDER + datasetName, RES_SUFFIX);
    Join(BuildResFolder(datasetName), GENERATED_FOLDER)
  }

  function BuildCsvFolder(datasetName: string): (r: string)
    ensures Relative(datasetName) ==> r == "../res/" + datasetName + "_res/csv/"
  {
    NotBareConcat(BASE_FOLDER + datasetName, RES_SUFFIX);
    Join(BuildResFolder(datasetName), CSV_FOLDER)
  }

  function BuildPicsFolder(datasetName: string): (r: string)
    ensures Under(r, BuildOutputFolder(datasetName)) && EndsWith(r, "pics/")
  {
    Join(BuildOutputFolder(datasetName), PICS_FOLDER)
  }

  /** `BUILD_FILE_PATH(base, file, desc, ext)`: `file_desc.ext` inside base. */
  function BuildFilePath(basePath: string, file: string, desc: string, ext: string): (r: string)
    ensures Relative(file) ==> Under(r, basePath)
    ensures EndsWith(r, "_" + desc + ext)
    ensures Relative(file) && Bare(basePath) ==> r == basePath + "/" + file + "_" + desc + ext
    ensures Relative(file) && !Bare(basePath) ==> r == basePath + file + "_" + desc + ext
  {
    FileNameJoined(basePath, file, desc, ext);
    FileNameSpelled(basePath, file, desc, ext);
    Join(basePath, file + "_" + desc + ext)
  }

  lemma FileNameJoined(basePath: string, file: string, desc: string, ext: string)
    ensures Relative(file) ==> Under(Join(basePath, file + "_" + desc + ext), basePath)
    ensures EndsWith(Join(basePath, file + "_" + desc + ext), "_" + desc + ext)
  {
    var name := file + "_" + desc + ext;
    assert Relative(file) ==> Relative(name) by {
      if |file| > 0 {
        assert name[0] == file[0];
      }
    }
    assert name == file + ("_" + desc + ext);
  }

  lemma FileNameSpelled(basePath: string, file: string, desc: string, ext: string)
    ensures Relative(file) && Bare(basePath) ==>
      Join(basePath, file + "_" + desc + ext) == basePath + "/" + file + "_" + desc + ext
    ensures Relative(file) && !Bare(basePath) ==>
      Join(basePath, file + "_" + desc + ext) == basePath + file + "_" + desc + ext
  {
    var name := file + "_" + desc + ext;
    if Relative(file) {
      assert Relative(name) by {
        if |file| > 0 {
          assert name[0] == file[0];
        }
      }
      assert basePath + "/" + name == basePath + "/" + file + "_" + desc + ext;
      assert basePath + name == basePath + file + "_" + desc + ext;
    }
  }

  /** The two kinds of saved table and the two formats, `PATHS_FUN[kind][ext]`. */
  datatype Saved = DataFrame | Features
  datatype Format = Pickle | Csv

  /** `BUILD_DATAFRAME_PICKLE_PATH`, `BUILD_DATAFRAME_CSV_PATH`,
      `BUILD_FEATURE_PICKLE_PATH`, `BUILD_FEATURE_CSV_PATH`: pickles go to the
      generated folder and CSV files to the csv folder of the dataset's
      resources, named after the file, the kind and the format. */
  function PathsFun(kind: Saved, format: Format, datasetName: string, file: string): (r: string)
    ensures Relative(file) ==>
      Under(r, if format.Pickle? then BuildGeneratedFolder(datasetName) else BuildCsvFolder(datasetName))
    ensures EndsWith(r, "_" + (if kind.DataFrame? then "dataframe" else "features") + (if format.Pickle? then ".pickle" else ".csv"))
  {
    var folder := if format.Pickle? then BuildGeneratedFolder(datasetName) else BuildCsvFolder(datasetName);
    var desc := if kind.DataFrame? then DATAFRAME else FEATURE;
    var ext := if format.Pickle? then PICKLE_EXTENSION else CSV_EXTENSION;
    BuildFilePath(folder, file, desc, ext)
  }
}
