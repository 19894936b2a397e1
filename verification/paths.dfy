/** The output-path builders of the package of constants: dataset, output,
    visualisation, cache and results folders, and the files inside them.
    The folder and file names that the module imports but that its constants
    file does not define are a parameter (`IoNames`). */
module Paths {
  import opened Wrappers
  import opened PathJoin

  const ROOT_FOLDER: string := "."
  const OUTPUT_FOLDER_NAME: string := "outputs"
  const PICS_FOLDER_NAME: string := "pics"
  const ANIMATION_FOLDER_NAME: string := "animation"
  const PICKLE_EXTENSION: string := ".pickle"
  const GIF_EXTENSION: string := ".gif"
  const PNG_EXTENSION: string := ".png"

  /** The names imported from the constants file without a definition there. */
  datatype IoNames = IoNames(
    resFolder: string,
    dataVisualization: string,
    plot2dFolderName: string,
    gif2dFolderName: string,
    gif3dFolderName: string,
    decomposition3dFolderName: string,
    cacheFolderName: string,
    cacheFeatures: string,
    cacheLearner: string,
    resultsFolderName: string,
    cmcFolderName: string,
    classificationReport: string,
    predictionsRanking: string,
    parameters: string,
    bestParams: string,
    txtExtension: string)

  /** `Paths.dataset_folder`. */
  function DatasetFolder(io: IoNames, datasetName: string): (r: string)
    ensures Relative(datasetName) ==> Under(r, io.resFolder)
    ensures Bare(io.resFolder) && Relative(datasetName) ==> r == io.resFolder + "/" + datasetName
  {
    Join(io.resFolder, datasetName)
  }

  /** `Paths.output_folder`. */
  function OutputFolder(datasetName: string): (r: string)
    ensures Relative(datasetName) ==> r == "./outputs/" + datasetName
  {
    assert Join(ROOT_FOLDER, OUTPUT_FOLDER_NAME) == "./outputs";
    Join3(ROOT_FOLDER, OUTPUT_FOLDER_NAME, datasetName)
  }

  // ----- Files in a folder -----

  /** Python's truth value of the optional subfolder argument. */
  predicate Falsy(subfolder: Option<string>) {
    subfolder.None? || subfolder.value == ""
  }

  /** `DataVisPaths.file`, `CachePaths.cache_file` and `ResultsPaths.result_file`,
      which are the same function: `fname + extension` in `folder`, or in its
      subfolder when one is given. */
  function File(folder: string, subfolder: Option<string>, fname: string, extension: string): (r: string)
    ensures EndsWith(r, fname + extension)
    ensures Relative(fname + extension) && (Falsy(subfolder) || Relative(subfolder.value)) ==> Under(r, folder)
    ensures Bare(folder) && Falsy(subfolder) && Relative(fname + extension) ==>
      r == folder + "/" + fname + extension
    ensures Bare(folder) && !Falsy(subfolder) && Bare(subfolder.value) && Relative(subfolder.value)
            && Relative(fname + extension) ==>
      r == folder + "/" + subfolder.value + "/" + fname + extension
  {
    if Falsy(subfolder) then Join(folder, fname + extension)
    else
      JoinBareWhen(folder, subfolder.value, fname + extension);
      Join3Under(folder, subfolder.value, fname + extension);
      Join3(folder, subfolder.value, fname + extension)
  }

  lemma JoinBareWhen(a: string, b: string, c: string)
    ensures Bare(a) && Bare(b) && Relative(b) && Relative(c) ==> Join3(a, b, c) == a + "/" + b + "/" + c
  {
    if Bare(a) && Bare(b) && Relative(b) && Relative(c) {
      JoinBare(a, b, c);
    }
  }

  // ----- Visualisation paths -----

  /** The visualisation folders, each one inside its parent. */
  function DataVisualizationFolder(io: IoNames, datasetName: string): string {
    Join(OutputFolder(datasetName), io.dataVisualization)
  }

  function PicsFolder(io: IoNames, datasetName: string): string {
    Join(DataVisualizationFolder(io, datasetName), PICS_FOLDER_NAME)
  }

  function AnimationFolder(io: IoNames, datasetName: string): string {
    Join(DataVisualizationFolder(io, datasetName), ANIMATION_FOLDER_NAME)
  }

  /** The four kinds of visualisation file. */
  datatype Visual = Plot2d | Gif2d | Gif3d | Decomposition3d

  /** `plot2d_folder`, `gif2d_folder`, `gif3d_folder`, `decomposition3d_folder`. */
  function VisualFolder(io: IoNames, datasetName: string, v: Visual): string {
    match v
    case Plot2d => Join(PicsFolder(io, datasetName), io.plot2dFolderName)
    case Gif2d => Join(AnimationFolder(io, datasetName), io.gif2dFolderName)
    case Gif3d => Join(AnimationFolder(io, datasetName), io.gif3dFolderName)
    case Decomposition3d => Join(AnimationFolder(io, datasetName), io.decomposition3dFolderName)
  }

  /** `plot2d`, `gif`, `gif3d`, `decomposition_gif3d`: a PNG for the plots, a
      GIF for the animations, in the kind's folder. */
  function VisualFile(io: IoNames, datasetName: string, v: Visual, subfolder: Option<string>, fname: string): (r: string)
    ensures EndsWith(r, fname + (if v.Plot2d? then PNG_EXTENSION else GIF_EXTENSION))
  {
    File(VisualFolder(io, datasetName, v), subfolder, fname, if v.Plot2d? then PNG_EXTENSION else GIF_EXTENSION)
  }

  /** With relative names, every visualisation file lies in the dataset's
      visualisation folder, which lies in its output folder. */
  lemma VisualFileUnder(io: IoNames, datasetName: string, v: Visual, subfolder: Option<string>, fname: string)
    requires Relative(datasetName) && Relative(io.dataVisualization)
    requires Relative(io.plot2dFolderName) && Relative(io.gif2dFolderName)
    requires Relative(io.gif3dFolderName) && Relative(io.decomposition3dFolderName)
    requires Falsy(subfolder) || Relative(subfolder.value)
    requires Relative(fname)
    ensures Under(VisualFile(io, datasetName, v, subfolder, fname), DataVisualizationFolder(io, datasetName))
    ensures Under(DataVisualizationFolder(io, datasetName), OutputFolder(datasetName))
  {
    var ext := if v.Plot2d? then PNG_EXTENSION else GIF_EXTENSION;
    assert Relative(fname + ext) by {
      if |fname| == 0 {
        assert fname + ext == ext;
      } else {
        assert (fname + ext)[0] == fname[0];
      }
    }
    var vis := DataVisualizationFolder(io, datasetName);
    var parent := if v.Plot2d? then PicsFolder(io, datasetName) else AnimationFolder(io, datasetName);
    var folder := VisualFolder(io, datasetName, v);
    UnderTrans(folder, parent, vis);
    UnderTrans(VisualFile(io, datasetName, v, subfolder, fname), folder, vis);
  }

  // ----- Cache paths -----

  /** `CachePaths.cache_folder`. */
  function CacheFolder(io: IoNames, datasetName: string): (r: string)
    ensures Relative(io.cacheFolderName) && Relative(datasetName) ==> Under(r, ROOT_FOLDER)
    ensures CacheNames(io.cacheFolderName, datasetName) ==> r == "./" + io.cacheFolderName + "/" + datasetName
  {
    Join3Under(ROOT_FOLDER, io.cacheFolderName, datasetName);
    JoinBareWhen(ROOT_FOLDER, io.cacheFolderName, datasetName);
    Join3(ROOT_FOLDER, io.cacheFolderName, datasetName)
  }

  /** Two bare relative path components. */
  predicate CacheNames(a: string, b: string) {
    Bare(a) && Relative(a) && Bare(b) && Relative(b)
  }

  /** `CachePaths.features` and `CachePaths.learner`: a pickle in the
      features or learner subfolder of the dataset's cache folder. */
  function CacheFeatures(io: IoNames, datasetName: string, fname: string): (r: string)
    ensures EndsWith(r, fname + PICKLE_EXTENSION)
    ensures CacheNames(io.cacheFolderName, datasetName) && CacheNames(io.cacheFeatures, fname) ==>
      r == CacheFolder(io, datasetName) + "/" + io.cacheFeatures + "/" + fname + ".pickle"
  {
    CacheFile(io, datasetName, io.cacheFeatures, fname)
  }

  function CacheLearner(io: IoNames, datasetName: string, fname: string): (r: string)
    ensures EndsWith(r, fname + PICKLE_EXTENSION)
    ensures CacheNames(io.cacheFolderName, datasetName) && CacheNames(io.cacheLearner, fname) ==>
      r == CacheFolder(io, datasetName) + "/" + io.cacheLearner + "/" + fname + ".pickle"
  {
    CacheFile(io, datasetName, io.cacheLearner, fname)
  }

  function CacheFile(io: IoNames, datasetName: string, subfolder: string, fname: string): (r: string)
    ensures EndsWith(r, fname + PICKLE_EXTENSION)
    ensures CacheNames(io.cacheFolderName, datasetName) && CacheNames(subfolder, fname) ==>
      r == CacheFolder(io, datasetName) + "/" + subfolder + "/" + fname + ".pickle"
  {
    var folder := CacheFolder(io, datasetName);
    assert CacheNames(io.cacheFolderName, datasetName) ==> folder[|folder| - 1] == datasetName[|datasetName| - 1];
    RelativeWithSuffix(fname, PICKLE_EXTENSION);
    File(folder, Some(subfolder), fname, PICKLE_EXTENSION)
  }

  lemma RelativeWithSuffix(s: string, ext: string)
    ensures Relative(s) && Relative(ext) ==> Relative(s + ext)
  {
    if |s| > 0 {
      assert (s + ext)[0] == s[0];
    } else {
      assert s + ext == ext;
    }
  }

  // ----- Results paths -----

  /** The five kinds of result file. */
  datatype ResultKind = Cmc | ClassificationReport | Ranking | Parameters | BestParams

  /** The subfolder and extension of each kind of result file. */
  function KindFolder(io: IoNames, k: ResultKind): string {
    match k
    case Cmc => io.cmcFolderName
    case ClassificationReport => io.classificationReport
    case Ranking => io.predictionsRanking
    case Parameters => io.parameters
    case BestParams => io.bestParams
  }

  function KindExtension(io: IoNames, k: ResultKind): string {
    if k.Cmc? then PNG_EXTENSION else io.txtExtension
  }

  /** `results_folder` once the time has been fixed. */
  function ResultsFolderAt(io: IoNames, datasetName: string, time: string): (r: string)
    ensures Relative(io.resultsFolderName) && Relative(time) ==> Under(r, OutputFolder(datasetName))
  {
    Join3Under(OutputFolder(datasetName), io.resultsFolderName, time);
    Join3(OutputFolder(datasetName), io.resultsFolderName, time)
  }

  /** The result file of kind k once the time has been fixed. */
  function ResultFileAt(io: IoNames, k: ResultKind, datasetName: string, fname: string, time: string): (r: string)
    ensures EndsWith(r, fname + KindExtension(io, k))
    ensures Relative(KindFolder(io, k)) && Relative(fname + KindExtension(io, k)) ==>
      Under(r, ResultsFolderAt(io, datasetName, time))
  {
    File(ResultsFolderAt(io, datasetName, time), Some(KindFolder(io, k)), fname, KindExtension(io, k))
  }

  /** The class attribute `TIME` of `ResultsPaths`, fixed on first use. */
  class ResultsPaths {
    var time: Option<string>

    constructor()
      ensures time == None
    {
      time := None;
    }

    /** `get_time`: the first call fixes the time to the clock's reading;
        every later call returns that same string, whatever the clock says. */
    method GetTime(clock: string) returns (t: string)
      modifies this
      ensures old(time).Some? ==> t == old(time).value
      ensures old(time).None? ==> t == clock
      ensures time == Some(t)
    {
      if time.None? {
        time := Some(clock);
      }
      t := time.value;
    }

    /** `results_folder`. */
    method ResultsFolder(io: IoNames, datasetName: string, clock: string) returns (r: string)
      modifies this
      ensures time.Some? && r == ResultsFolderAt(io, datasetName, time.value)
      ensures old(time).Some? ==> time == old(time)
      ensures old(time).None? ==> time == Some(clock)
    {
      var t := GetTime(clock);
      r := Join3(OutputFolder(datasetName), io.resultsFolderName, t);
    }

    /** `cmc`, `classification_report`, `ranking`, `parameters`, `best_params`. */
    method ResultFile(io: IoNames, k: ResultKind, datasetName: string, fname: string, clock: string) returns (r: string)
      modifies this
      ensures time.Some? && r == ResultFileAt(io, k, datasetName, fname, time.value)
      ensures old(time).Some? ==> time == old(time)
      ensures old(time).None? ==> time == Some(clock)
    {
      var folder := ResultsFolder(io, datasetName, clock);
      r := File(folder, Some(KindFolder(io, k)), fname, KindExtension(io, k));
    }
  }

  /** Two result files written during one run share a results folder: after
      the first, the time no longer depends on the clock. */
  method SameResultsFolder(paths: ResultsPaths, io: IoNames, k1: ResultKind, k2: ResultKind,
                           datasetName: string, f1: string, f2: string, clock1: string, clock2: string)
    returns (p1: string, p2: string)
    modifies paths
    ensures paths.time.Some?
    ensures p1 == ResultFileAt(io, k1, datasetName, f1, paths.time.value)
    ensures p2 == ResultFileAt(io, k2, datasetName, f2, paths.time.value)
  {
    p1 := paths.ResultFile(io, k1, datasetName, f1, clock1);
    p2 := paths.ResultFile(io, k2, datasetName, f2, clock2);
  }
}
