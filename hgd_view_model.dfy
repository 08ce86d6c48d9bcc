/**
 * One analysis: the window lengths derived from the parameter list, the
 * fixed composition of the series pipeline over a measured distance series,
 * the time axis rebuilt after loading a record, and the short form of a path
 * shown in the window.
 */
module HgdViewModels {
  import opened Series
  import opened HgdManipulations
  import opened Models
  import ParametersViewModels

  /** The frame rate the analysis assumes. */
  const Fps: real := 60.0

  /** The analysis record: the time axis and every stage of the series pipeline. */
  class HgdData {
    var recordingTime: seq<real>
    var rawDistance: seq<Sample>
    var medianDistance: seq<Sample>
    var longActions: seq<Sample>
    var standardDeviation: seq<Sample>
    var rigidActions: seq<Sample>
    var usabilityIssues: seq<Sample>
    var bufferedUsabilityIssues: seq<Sample>

    constructor ()
      ensures Empty()
    {
      recordingTime := [];
      rawDistance := [];
      medianDistance := [];
      longActions := [];
      standardDeviation := [];
      rigidActions := [];
      usabilityIssues := [];
      bufferedUsabilityIssues := [];
    }

    predicate Empty()
      reads this
    {
      recordingTime == [] && rawDistance == [] && StagesAfterRaw() == Stages([], [], [], [], [], [], [])
    }

    /** The seven series the pipeline writes, in pipeline order. */
    function StagesAfterRaw(): Stages
      reads this
    {
      Stages(rawDistance, medianDistance, longActions, standardDeviation, rigidActions,
             usabilityIssues, bufferedUsabilityIssues)
    }
  }

  /** The window lengths and the threshold, in frames and in the deviation's units. */
  datatype Settings = Settings(longActionCount: int, stdDevPeriod: int, bufferLength: int,
                               medianPeriod: int, stdDevThreshold: int)
  {
    /** The lengths the pipeline's stages accept: a median needs a window, the others a count. */
    predicate Runnable()
    {
      medianPeriod >= 1 && stdDevPeriod >= 0 && bufferLength >= 0
    }
  }

  /** `count` is the whole number of frames in `seconds` at `Fps`, truncated toward zero. */
  predicate FramesIn(seconds: real, count: int)
  {
    && (0.0 <= seconds ==> 0 <= count && count as real <= seconds * Fps < count as real + 1.0)
    && (seconds < 0.0 ==> count <= 0 && count as real - 1.0 < seconds * Fps <= count as real)
  }

  /**
   * The constructor's conversion of the parameter values: three durations in
   * seconds become frame counts, the median period and the threshold are
   * converted to whole numbers. It reads five entries, so a shorter list is
   * an index error.
   */
  function DeriveSettings(values: seq<real>): (r: Option<Settings>)
    ensures r.Some? <==> |values| >= 5
    ensures r.Some? ==> FramesIn(values[0], r.value.longActionCount)
    ensures r.Some? ==> FramesIn(values[1], r.value.stdDevPeriod)
    ensures r.Some? ==> FramesIn(values[2], r.value.bufferLength)
    ensures r.Some? && values[3] == values[3].Floor as real ==> r.value.medianPeriod as real == values[3]
    ensures r.Some? && values[4] == values[4].Floor as real ==> r.value.stdDevThreshold as real == values[4]
  {
    if |values| < 5 then None
    else Some(Settings(Trunc(values[0] * Fps), Trunc(values[1] * Fps), Trunc(values[2] * Fps),
                       Trunc(values[3]), Trunc(values[4])))
  }

  /** The default durations give two seconds, two seconds and half a second of frames. */
  lemma {:induction false} DefaultSettings(threshold: int)
    ensures DeriveSettings([2.0, 2.0, 0.5, 10.0, threshold as real])
         == Some(Settings(120, 120, 30, 10, threshold))
  {
    TruncOfInt(threshold);
  }

  /** The values of a parameter list, in order. */
  function ValuesOf(parameters: seq<Parameter>): (values: seq<real>)
    reads parameters
    ensures |values| == |parameters|
    ensures forall k | 0 <= k < |parameters| :: values[k] == parameters[k].value
  {
    seq(|parameters|, k requires 0 <= k < |parameters| reads parameters => parameters[k].value)
  }

  /** The seven series of the pipeline, in the order they are computed. */
  datatype Stages = Stages(rawDistance: seq<Sample>, medianDistance: seq<Sample>, longActions: seq<Sample>,
                           standardDeviation: seq<Sample>, rigidActions: seq<Sample>,
                           usabilityIssues: seq<Sample>, bufferedUsabilityIssues: seq<Sample>)

  /**
   * The fixed composition: prune, moving median, low pass, moving standard
   * deviation, threshold, binary, buffer. The buffer reuses the deviation
   * period as its window.
   */
  function Pipeline(measured: seq<Sample>, s: Settings, sqrt: real -> real): Stages
    requires s.Runnable()
  {
    var raw := Pruned(measured);
    var median := MovingMedianOf(raw, s.medianPeriod);
    var longActions := LowPassed(median, s.longActionCount);
    var deviation := MovingStdDevOf(longActions, s.stdDevPeriod, sqrt);
    var rigid := Thresholded(deviation, s.stdDevThreshold as real);
    var issues := Binary(rigid);
    Stages(raw, median, longActions, deviation, rigid, issues, Buffered(issues, s.stdDevPeriod, s.bufferLength))
  }

  /**
   * The lengths line up: the first three stages have the input's length, and
   * so do the rest when the input is at least one deviation window long;
   * otherwise they have one deviation window's length.
   */
  lemma {:induction false} PipelineLengths(measured: seq<Sample>, s: Settings, sqrt: real -> real)
    requires s.Runnable()
    ensures var p := Pipeline(measured, s, sqrt);
      && |p.rawDistance| == |measured| && |p.medianDistance| == |measured| && |p.longActions| == |measured|
      && var n := if |measured| >= s.stdDevPeriod then |measured| else s.stdDevPeriod;
         |p.standardDeviation| == n && |p.rigidActions| == n && |p.usabilityIssues| == n
         && |p.bufferedUsabilityIssues| == n
  {
    var p := Pipeline(measured, s, sqrt);
    LowPassIdempotent(p.medianDistance, s.longActionCount);
    MovingStdDevShape(p.longActions, s.stdDevPeriod, sqrt);
    ThresholdProperties(p.standardDeviation, s.stdDevThreshold as real);
    BinaryProperties(p.rigidActions);
    BufferProperties(p.usabilityIssues, s.stdDevPeriod, s.bufferLength);
  }

  /**
   * The tail of the pipeline: a one after the deviation, the threshold and the
   * binary conversion at `i` means the deviation window starting at `i` fits
   * the series, starts at a number, holds no gap, and deviates by at most the
   * threshold.
   */
  lemma {:induction false} IssueHasQuietWindow(longActions: seq<Sample>, period: nat, threshold: real, sqrt: real -> real, i: nat)
    requires i < |Binary(Thresholded(MovingStdDevOf(longActions, period, sqrt), threshold))|
    requires Binary(Thresholded(MovingStdDevOf(longActions, period, sqrt), threshold))[i].Num?
    ensures i + period < |longActions| && longActions[i].Num?
    ensures AllNum(longActions[i..i + period])
    ensures MovingStdDevOf(longActions, period, sqrt)[i].Num?
    ensures MovingStdDevOf(longActions, period, sqrt)[i].value <= threshold
    ensures Binary(Thresholded(MovingStdDevOf(longActions, period, sqrt), threshold))[i] == Num(1.0)
  {
    var deviation := MovingStdDevOf(longActions, period, sqrt);
    MovingStdDevShape(longActions, period, sqrt);
    ThresholdProperties(deviation, threshold);
    BinaryProperties(Thresholded(deviation, threshold));
    assert deviation[i].Num?;
    assert i < |longActions| - period;
    if period >= 1 {
      assert AllNum(longActions[i..i + period]);
    } else {
      assert longActions[i..i + period] == [];
    }
  }

  /**
   * A usability issue is flagged at `i` only inside a long action whose
   * deviation window starting at `i` fits the series, holds no gap, and
   * deviates by at most the threshold; it is flagged with a one, and the
   * buffered series flags it too, again with a one.
   */
  lemma {:induction false} IssuesLieInLongActions(measured: seq<Sample>, s: Settings, sqrt: real -> real, p: Stages, i: nat)
    requires s.Runnable() && p == Pipeline(measured, s, sqrt)
    requires i < |p.usabilityIssues| && p.usabilityIssues[i].Num?
    ensures i + s.stdDevPeriod < |measured|
    ensures p.longActions[i].Num? && p.longActions[i] == p.medianDistance[i]
    ensures AllNum(p.longActions[i..i + s.stdDevPeriod])
    ensures p.standardDeviation[i].Num? && p.standardDeviation[i].value <= s.stdDevThreshold as real
    ensures p.usabilityIssues[i] == Num(1.0)
    ensures |p.bufferedUsabilityIssues| == |p.usabilityIssues| && p.bufferedUsabilityIssues[i] == Num(1.0)
  {
    IssueInsideLongAction(measured, s, sqrt, p, i);
    IssueSurvivesBuffer(measured, s, sqrt, p, i);
  }

  /** The same, stated on the stages from the median onwards. */
  lemma {:induction false} QuietIssueIsLongAction(median: seq<Sample>, count: int, window: nat, threshold: real, sqrt: real -> real, i: nat)
    requires i < |Binary(Thresholded(MovingStdDevOf(LowPassed(median, count), window, sqrt), threshold))|
    requires Binary(Thresholded(MovingStdDevOf(LowPassed(median, count), window, sqrt), threshold))[i].Num?
    ensures i + window < |median| && median[i].Num?
    ensures LowPassed(median, count)[i] == median[i]
    ensures AllNum(LowPassed(median, count)[i..i + window])
  {
    var longActions := LowPassed(median, count);
    IssueHasQuietWindow(longActions, window, threshold, sqrt, i);
    assert longActions[i] == KeptAt(median, count, i);
  }

  lemma {:induction false} IssueInsideLongAction(measured: seq<Sample>, s: Settings, sqrt: real -> real, p: Stages, i: nat)
    requires s.Runnable() && p == Pipeline(measured, s, sqrt)
    requires i < |p.usabilityIssues| && p.usabilityIssues[i].Num?
    ensures i + s.stdDevPeriod < |measured|
    ensures p.longActions[i].Num? && p.longActions[i] == p.medianDistance[i]
    ensures AllNum(p.longActions[i..i + s.stdDevPeriod])
    ensures p.standardDeviation[i].Num? && p.standardDeviation[i].value <= s.stdDevThreshold as real
    ensures p.usabilityIssues[i] == Num(1.0)
  {
    var window: nat := s.stdDevPeriod;
    var threshold := s.stdDevThreshold as real;
    assert |p.medianDistance| == |measured|;
    assert p.longActions == LowPassed(p.medianDistance, s.longActionCount);
    assert p.standardDeviation == MovingStdDevOf(p.longActions, window, sqrt);
    assert p.usabilityIssues == Binary(Thresholded(p.standardDeviation, threshold));
    QuietIssueIsLongAction(p.medianDistance, s.longActionCount, window, threshold, sqrt, i);
    IssueHasQuietWindow(p.longActions, window, threshold, sqrt, i);
  }

  lemma {:induction false} IssueSurvivesBuffer(measured: seq<Sample>, s: Settings, sqrt: real -> real, p: Stages, i: nat)
    requires s.Runnable() && p == Pipeline(measured, s, sqrt)
    requires i < |p.usabilityIssues| && p.usabilityIssues[i].Num?
    ensures |p.bufferedUsabilityIssues| == |p.usabilityIssues| && p.bufferedUsabilityIssues[i] == Num(1.0)
  {
    var window: nat := s.stdDevPeriod;
    var buffer: nat := s.bufferLength;
    assert p.bufferedUsabilityIssues == Buffered(p.usabilityIssues, window, buffer);
    assert OnesWhereNum(p.usabilityIssues) by {
      BinaryProperties(p.rigidActions);
    }
    BufferKeepsOne(p.usabilityIssues, window, buffer, i);
  }

  /** The stage calls of the analysis, each one fed the previous one's output. */
  method RunPipeline(measured: seq<Sample>, s: Settings, sqrt: real -> real) returns (stages: Stages)
    requires s.Runnable()
    ensures stages == Pipeline(measured, s, sqrt)
  {
    var raw := PruneValues(measured);
    var median := MovingMedian(raw, s.medianPeriod);
    var longActions := LowPass(median, s.longActionCount);
    var deviation := MovingStdDev(longActions, s.stdDevPeriod, sqrt);
    var rigid := Threshold(deviation, s.stdDevThreshold as real);
    var issues := ConvertToBinary(rigid);
    var buffered := Buffer(issues, s.stdDevPeriod, s.bufferLength);
    stages := Stages(raw, median, longActions, deviation, rigid, issues, buffered);
  }

  class HgdViewModel {
    var longActionCount: int
    var stdDevPeriod: int
    var bufferLength: int
    var medianPeriod: int
    var stdDevThreshold: int
    var hgdData: HgdData
    var parameterList: seq<Parameter>

    function CurrentSettings(): Settings
      reads this
    {
      Settings(longActionCount, stdDevPeriod, bufferLength, medianPeriod, stdDevThreshold)
    }

    /** Starts with an empty record and derives the settings from entries 0 to 4. */
    constructor (parameterList: seq<Parameter>)
      requires |parameterList| >= 5
      ensures fresh(hgdData) && hgdData.Empty()
      ensures this.parameterList == parameterList
      ensures DeriveSettings(ValuesOf(parameterList)) == Some(CurrentSettings())
    {
      hgdData := new HgdData();
      this.parameterList := parameterList;
      longActionCount := Trunc(parameterList[0].value * Fps);
      stdDevPeriod := Trunc(parameterList[1].value * Fps);
      bufferLength := Trunc(parameterList[2].value * Fps);
      medianPeriod := Trunc(parameterList[3].value);
      stdDevThreshold := Trunc(parameterList[4].value);
    }

    /**
     * A new record holding the measured series; the pipeline runs only when
     * there is one measurement per video frame.
     */
    method AnalyseData(measured: seq<Sample>, video: VideoInfo, sqrt: real -> real)
      requires |measured| == video.frameCount ==> video.fps != 0.0 && CurrentSettings().Runnable()
      modifies this`hgdData
      ensures fresh(hgdData)
      ensures |measured| != video.frameCount ==>
        hgdData.recordingTime == [] && hgdData.StagesAfterRaw() == Stages(measured, [], [], [], [], [], [])
      ensures |measured| == video.frameCount ==> hgdData.recordingTime == TimeAxis(|measured|, video.fps)
      ensures |measured| == video.frameCount ==> hgdData.StagesAfterRaw() == Pipeline(measured, CurrentSettings(), sqrt)
    {
      // What the hand detector's measurement returns.
      var data := new HgdData();
      data.rawDistance := measured;
      hgdData := data;

      if |data.rawDistance| == video.frameCount {
        var time := RecordingTimeFromVideo(Some(video));
        var stages := RunPipeline(data.rawDistance, CurrentSettings(), sqrt);
        data.recordingTime := time;
        data.rawDistance := stages.rawDistance;
        data.medianDistance := stages.medianDistance;
        data.longActions := stages.longActions;
        data.standardDeviation := stages.standardDeviation;
        data.rigidActions := stages.rigidActions;
        data.usabilityIssues := stages.usabilityIssues;
        data.bufferedUsabilityIssues := stages.bufferedUsabilityIssues;
        assert data.recordingTime == time && data.StagesAfterRaw() == stages;
      }
    }

    /**
     * A new record; with a path, the loaded time axis is replaced by one of
     * the same length at the fixed frame rate.
     */
    method LoadHgd(loadPath: Option<string>, loadedRecordingTime: seq<real>)
      modifies this`hgdData
      ensures fresh(hgdData)
      ensures loadPath.None? ==> hgdData.Empty()
      ensures loadPath.Some? ==>
        hgdData.recordingTime == TimeAxis(|loadedRecordingTime|, Fps)
    {
      var data := new HgdData();
      hgdData := data;
      if loadPath.Some? {
        // What loading the file puts on the time axis.
        data.recordingTime := loadedRecordingTime;
        data.recordingTime := RecordingTimeFromConstant(|data.recordingTime|, Fps);
      }
    }
  }

  /**
   * The main window hands the parameter editor's list to the analysis. That
   * list has four entries and the analysis reads five, so no settings can be
   * derived from it.
   */
  method EditorListIsTooShort(defaults: StandardParameters) returns (settings: Option<Settings>)
    requires defaults.Distinct()
    modifies defaults.longActionDuration, defaults.stdDevWindowDuration
    modifies defaults.bufferDuration, defaults.medianWindowLength
    ensures settings == None
  {
    var editor := new ParametersViewModels.ParametersViewModel(defaults);
    settings := DeriveSettings(ValuesOf(editor.parameterList));
  }

  // ---------------------------------------------------------------------------
  // ShortenPath

  /** The index of the last `c` in `s`, or -1. */
  function LastIndexOf(s: string, c: char): (r: int)
    ensures -1 <= r < |s|
    ensures r >= 0 ==> s[r] == c
    ensures forall k | r < k < |s| :: s[k] != c
  {
    if |s| == 0 then -1 else if s[|s| - 1] == c then |s| - 1 else LastIndexOf(s[..|s| - 1], c)
  }

  /** The part of `d` after its last backslash, or all of `d` when it has none. */
  function Tail(d: string): string
  {
    if |d| == 0 then "" else if d[|d| - 1] == '\\' then "" else Tail(d[..|d| - 1]) + [d[|d| - 1]]
  }

  /**
   * `...\parent\file`: the file name after the last backslash and the folder
   * name in front of it. Without a backslash the removal is out of range.
   */
  function ShortenPath(inputPath: string): (r: string)
    requires '\\' in inputPath
    ensures |r| >= 4 && r[..4] == "...\\"
    ensures '\\' in r
  {
    var cut := LastIndexOf(inputPath, '\\');
    var fileName := inputPath[cut + 1..];
    var parent := inputPath[..cut];
    var parentFolder := parent[LastIndexOf(parent, '\\') + 1..];
    "...\\" + parentFolder + "\\" + fileName
  }

  lemma {:induction false} LastIndexOfSeparator(d: string, c: char, f: string)
    requires c !in f
    ensures LastIndexOf(d + [c] + f, c) == |d|
  {
    var s := d + [c] + f;
    var r := LastIndexOf(s, c);
    assert s[|d|] == c;
  }

  lemma {:induction false} TailIsAfterLast(d: string)
    ensures Tail(d) == d[LastIndexOf(d, '\\') + 1..]
    decreases |d|
  {
    if |d| > 0 && d[|d| - 1] != '\\' {
      var init := d[..|d| - 1];
      TailIsAfterLast(init);
      assert LastIndexOf(d, '\\') == LastIndexOf(init, '\\');
      assert d[LastIndexOf(d, '\\') + 1..] == init[LastIndexOf(init, '\\') + 1..] + [d[|d| - 1]];
    }
  }

  /** A path `d\f` with no backslash in `f` shortens to `...\` + the tail of `d` + `\f`. */
  lemma {:induction false} ShortenPathSplits(d: string, f: string)
    requires '\\' !in f
    ensures '\\' in d + "\\" + f
    ensures ShortenPath(d + "\\" + f) == "...\\" + Tail(d) + "\\" + f
  {
    var p := d + "\\" + f;
    assert p[|d|] == '\\';
    LastIndexOfSeparator(d, '\\', f);
    assert p[..|d|] == d;
    assert p[|d| + 1..] == f;
    TailIsAfterLast(d);
  }

  lemma {:induction false} AfterLastHasNone(s: string, c: char)
    ensures c !in s[LastIndexOf(s, c) + 1..]
  {
    var r := LastIndexOf(s, c);
    var t := s[r + 1..];
    forall k | 0 <= k < |t| ensures t[k] != c {
      assert t[k] == s[r + 1 + k];
    }
  }

  lemma {:induction false} TailAfterSeparator(a: string, b: string)
    requires '\\' !in b
    ensures Tail(a + "\\" + b) == b
    decreases |b|
  {
    if |b| > 0 {
      var init := b[..|b| - 1];
      assert (a + "\\" + b)[..|a + "\\" + b| - 1] == a + "\\" + init;
      TailAfterSeparator(a, init);
      assert init + [b[|b| - 1]] == b;
    } else {
      assert a + "\\" + b == a + "\\";
    }
  }

  /** A shortened path is `...\` + a folder name + `\` + a file name, neither holding a backslash. */
  lemma {:induction false} ShortenedParts(p: string) returns (parentFolder: string, fileName: string)
    requires '\\' in p
    ensures '\\' !in parentFolder && '\\' !in fileName
    ensures ShortenPath(p) == "...\\" + parentFolder + "\\" + fileName
  {
    var cut := LastIndexOf(p, '\\');
    var parent := p[..cut];
    fileName := p[cut + 1..];
    parentFolder := parent[LastIndexOf(parent, '\\') + 1..];
    AfterLastHasNone(p, '\\');
    AfterLastHasNone(parent, '\\');
  }

  /** Shortening a shortened path changes nothing. */
  lemma {:induction false} ShortenPathIdempotent(p: string)
    requires '\\' in p
    ensures ShortenPath(ShortenPath(p)) == ShortenPath(p)
  {
    var parentFolder, fileName := ShortenedParts(p);
    var front := "...\\" + parentFolder;
    ShortenPathSplits(front, fileName);
    TailAfterSeparator("...", parentFolder);
    assert front == "..." + "\\" + parentFolder;
  }
}
