/**
 * The series transforms of the hand-gaze-distance analysis. Each source
 * function appends to a fresh output list inside a loop; each is modelled by a
 * method with that loop, proved equal to a specification function, and the
 * properties the analysis relies on are lemmas about those functions.
 */
module HgdManipulations {
  import opened Series

  // ---------------------------------------------------------------------------
  // Recording time

  /** `n` time stamps in milliseconds: frame `i` of a video at `fps` frames per second starts at `i * 1000 / fps`. */
  function TimeAxis(n: nat, fps: real): (r: seq<real>)
    requires fps != 0.0
    ensures |r| == n
  {
    seq(n, i requires 0 <= i < n => (1000.0 / fps) * (i as real))
  }

  /** The axis starts at zero and its stamps lie one frame duration apart. */
  lemma {:induction false} TimeAxisSpacing(n: nat, fps: real)
    requires fps != 0.0
    ensures n > 0 ==> TimeAxis(n, fps)[0] == 0.0
    ensures forall i | 0 < i < n :: TimeAxis(n, fps)[i] - TimeAxis(n, fps)[i - 1] == 1000.0 / fps
  {
    forall i | 0 < i < n ensures TimeAxis(n, fps)[i] - TimeAxis(n, fps)[i - 1] == 1000.0 / fps {
      var step := 1000.0 / fps;
      assert step * (i as real) - step * ((i - 1) as real) == step;
    }
  }

  /** One time stamp per frame; a negative length gives the empty list, as the `for` loop never runs. */
  method RecordingTimeFromConstant(length: int, fps: real) returns (recordingTime: seq<real>)
    requires fps != 0.0
    ensures recordingTime == TimeAxis(if length > 0 then length else 0, fps)
  {
    recordingTime := [];
    var frameStep := 1000.0 / fps;
    var i := 0;
    while i < length
      invariant 0 <= i <= if length > 0 then length else 0
      invariant |recordingTime| == i
      invariant forall j | 0 <= j < i :: recordingTime[j] == frameStep * (j as real)
    {
      recordingTime := recordingTime + [frameStep * (i as real)];
      i := i + 1;
    }
    assert forall j | 0 <= j < i :: recordingTime[j] == TimeAxis(i, fps)[j];
  }

  datatype Option<T> = None | Some(value: T)

  /** What the time axis reads from a hand detector's video. */
  datatype VideoInfo = VideoInfo(fps: real, frameCount: int)

  /** Without a detector the time axis is empty; with one it has a stamp per video frame. */
  method RecordingTimeFromVideo(detector: Option<VideoInfo>) returns (recordingTime: seq<real>)
    requires detector.Some? ==> detector.value.fps != 0.0
    ensures detector.None? ==> recordingTime == []
    ensures detector.Some? ==> recordingTime == TimeAxis(
      if detector.value.frameCount > 0 then detector.value.frameCount else 0, detector.value.fps)
  {
    recordingTime := [];
    if detector.Some? {
      var frameStep := 1000.0 / detector.value.fps;
      var frameCount: nat := if detector.value.frameCount > 0 then detector.value.frameCount else 0;
      for i := 0 to frameCount
        invariant |recordingTime| == i
        invariant forall j | 0 <= j < i :: recordingTime[j] == frameStep * (j as real)
      {
        recordingTime := recordingTime + [frameStep * (i as real)];
      }
      assert forall j | 0 <= j < frameCount :: recordingTime[j] == TimeAxis(frameCount, detector.value.fps)[j];
    }
  }

  // ---------------------------------------------------------------------------
  // PruneValues

  /** `Math.Abs(x - (-1f)) < 0.0001f`: the "no measurement" sentinel -1. */
  predicate IsSentinel(x: Sample)
  {
    x.Num? && -0.0001 < x.value + 1.0 < 0.0001
  }

  function PrunedValue(x: Sample): Sample
  {
    if IsSentinel(x) then NaN else x
  }

  function Pruned(xs: seq<Sample>): seq<Sample>
  {
    seq(|xs|, i requires 0 <= i < |xs| => PrunedValue(xs[i]))
  }

  method PruneValues(inputValues: seq<Sample>) returns (outputValues: seq<Sample>)
    ensures |outputValues| == |inputValues|
    ensures forall i | 0 <= i < |inputValues| ::
      outputValues[i] == if IsSentinel(inputValues[i]) then NaN else inputValues[i]
    ensures outputValues == Pruned(inputValues)
  {
    outputValues := [];
    for i := 0 to |inputValues|
      invariant |outputValues| == i
      invariant forall j | 0 <= j < i :: outputValues[j] == PrunedValue(inputValues[j])
    {
      outputValues := outputValues + [if IsSentinel(inputValues[i]) then NaN else inputValues[i]];
    }
  }

  /** Pruning only turns sentinels into NaN; a second pass changes nothing. */
  lemma {:induction false} PruneIdempotent(xs: seq<Sample>)
    ensures |Pruned(xs)| == |xs|
    ensures forall i | 0 <= i < |xs| :: Pruned(xs)[i].NaN? <==> xs[i].NaN? || IsSentinel(xs[i])
    ensures forall i | 0 <= i < |xs| :: Pruned(xs)[i].Num? ==> Pruned(xs)[i] == xs[i]
    ensures Pruned(Pruned(xs)) == Pruned(xs)
  {
  }

  // ---------------------------------------------------------------------------
  // MovingMedian

  /** The `period` values ending at `i`, newest first, as the source collects them. */
  function TrailingWindow(xs: seq<Sample>, i: nat, period: nat): seq<Sample>
    requires i < |xs| && period <= i + 1
  {
    seq(period, k requires 0 <= k < period => xs[i - k])
  }

  /**
   * The median of a sorted window: for an odd length the element at index
   * `period / 2` (the source's `(int)(period / 2 + 0.5)`), for an even length the
   * mean of the elements at `period / 2` and `period / 2 - 1`.
   */
  function MedianOfSorted(values: seq<Sample>): Sample
    requires |values| >= 1
  {
    var period := |values|;
    if period % 2 == 0 then Divide(Plus(values[period / 2], values[period / 2 - 1]), 2.0)
    else values[period / 2]
  }

  function MedianAt(xs: seq<Sample>, period: nat, i: nat): Sample
    requires period >= 1 && i < |xs|
  {
    if i < period - 1 then NaN else MedianOfSorted(SortSamples(TrailingWindow(xs, i, period)))
  }

  function MovingMedianOf(xs: seq<Sample>, period: nat): seq<Sample>
    requires period >= 1
  {
    seq(|xs|, i requires 0 <= i < |xs| => MedianAt(xs, period, i))
  }

  method MovingMedian(inputValues: seq<Sample>, period: int) returns (outputValues: seq<Sample>)
    requires period >= 1
    ensures outputValues == MovingMedianOf(inputValues, period)
  {
    outputValues := [];
    for i := 0 to |inputValues|
      invariant |outputValues| == i
      invariant forall j | 0 <= j < i :: outputValues[j] == MedianAt(inputValues, period, j)
    {
      if i < period - 1 {
        outputValues := outputValues + [NaN];
      } else {
        var values := [];
        var x := i;
        while x > i - period
          invariant i - period <= x <= i
          invariant |values| == i - x
          invariant forall k | 0 <= k < |values| :: values[k] == inputValues[i - k]
        {
          values := values + [inputValues[x]];
          x := x - 1;
        }
        assert values == TrailingWindow(inputValues, i, period);
        values := SortSamples(values);
        var median := MedianOfSorted(values);
        outputValues := outputValues + [median];
      }
    }
  }

  lemma {:induction false} TrailingWindowMultiset(xs: seq<Sample>, i: nat, period: nat)
    requires i < |xs| && period <= i + 1
    ensures multiset(TrailingWindow(xs, i, period)) == multiset(xs[i + 1 - period..i + 1])
  {
    if period > 0 {
      TrailingWindowMultiset(xs, i, period - 1);
      assert TrailingWindow(xs, i, period) == TrailingWindow(xs, i, period - 1) + [xs[i + 1 - period]];
      assert xs[i + 1 - period..i + 1] == [xs[i + 1 - period]] + xs[i + 2 - period..i + 1];
    }
  }

  /**
   * The median at `i` is a function of the multiset of the `period` values
   * ending at `i`: windows holding the same values give the same median.
   */
  lemma {:induction false} MedianFromMultiset(xs: seq<Sample>, ys: seq<Sample>, period: nat, i: nat, j: nat)
    requires period >= 1 && period - 1 <= i < |xs| && period - 1 <= j < |ys|
    requires multiset(xs[i + 1 - period..i + 1]) == multiset(ys[j + 1 - period..j + 1])
    ensures MedianAt(xs, period, i) == MedianAt(ys, period, j)
  {
    TrailingWindowMultiset(xs, i, period);
    TrailingWindowMultiset(ys, j, period);
    SortDependsOnMultiset(TrailingWindow(xs, i, period), TrailingWindow(ys, j, period));
  }

  /**
   * Because NaN sorts first, the median is NaN exactly when at least half of
   * the window is NaN.
   */
  lemma {:induction false} MedianNaNIff(xs: seq<Sample>, period: nat, i: nat)
    requires period >= 1 && period - 1 <= i < |xs|
    ensures MedianAt(xs, period, i).NaN? <==> 2 * multiset(xs[i + 1 - period..i + 1])[NaN] >= period
  {
    var w := TrailingWindow(xs, i, period);
    var sorted := SortSamples(w);
    var k := multiset(sorted)[NaN];
    TrailingWindowMultiset(xs, i, period);
    assert k == multiset(xs[i + 1 - period..i + 1])[NaN];
    assert MedianAt(xs, period, i) == MedianOfSorted(sorted);
    var h := period / 2;
    SortedNaNPrefix(sorted, h);
    if period % 2 == 0 {
      assert period == 2 * h;
      SortedNaNPrefix(sorted, h - 1);
      assert MedianOfSorted(sorted).NaN? <==> sorted[h].NaN? || sorted[h - 1].NaN?;
    } else {
      assert period == 2 * h + 1;
      assert MedianOfSorted(sorted) == sorted[h];
    }
  }

  /** With period three the median of ascending neighbours is the middle one. */
  lemma {:induction false} MedianOfThree(xs: seq<Sample>, i: nat)
    requires 2 <= i < |xs|
    requires SampleLe(xs[i - 2], xs[i - 1]) && SampleLe(xs[i - 1], xs[i])
    ensures MedianAt(xs, 3, i) == xs[i - 1]
  {
    var slice := xs[i - 2..i + 1];
    assert SortSamples(TrailingWindow(xs, i, 3)) == slice by {
      assert Sorted(slice) by {
        SampleLeTransitive(xs[i - 2], xs[i - 1], xs[i]);
      }
      TrailingWindowMultiset(xs, i, 3);
      SortingYields(slice, TrailingWindow(xs, i, 3));
    }
    assert slice[1] == xs[i - 1];
  }

  lemma {:induction false} MovingMedianExample(xs: seq<Sample>)
    requires xs == [Num(1.0), Num(2.0), Num(3.0), Num(4.0), Num(5.0)]
    ensures MovingMedianOf(xs, 3) == [NaN, NaN, Num(2.0), Num(3.0), Num(4.0)]
  {
    MedianOfThree(xs, 2);
    MedianOfThree(xs, 3);
    MedianOfThree(xs, 4);
    var r := MovingMedianOf(xs, 3);
    assert r[0] == NaN && r[1] == NaN;
    assert r[2] == xs[1] && r[3] == xs[2] && r[4] == xs[3];
  }

  // ---------------------------------------------------------------------------
  // ValueWindow

  /** The run of non-NaN values starting at `index` (empty when that value is NaN). */
  method ValueWindow(inputValues: seq<Sample>, index: nat) returns (currentWindow: seq<Sample>)
    requires index < |inputValues|
    ensures inputValues[index].NaN? ==> currentWindow == []
    ensures index + |currentWindow| <= |inputValues|
    ensures currentWindow == inputValues[index..index + |currentWindow|]
    ensures forall j | 0 <= j < |currentWindow| :: currentWindow[j].Num?
    ensures index + |currentWindow| == |inputValues| || inputValues[index + |currentWindow|].NaN?
    ensures |currentWindow| == RunLength(inputValues, index)
  {
    currentWindow := [];
    var k := index;
    while inputValues[k].Num?
      invariant index <= k < |inputValues|
      invariant currentWindow == inputValues[index..k]
      invariant forall j | 0 <= j < |currentWindow| :: currentWindow[j].Num?
      decreases |inputValues| - k
    {
      currentWindow := currentWindow + [inputValues[k]];
      assert currentWindow == inputValues[index..k + 1];
      if k + 1 < |inputValues| {
        if inputValues[k + 1].NaN? {
          break;
        }
        k := k + 1;
      } else {
        break;
      }
    }
    assert currentWindow == inputValues[index..index + |currentWindow|];
    forall j | index <= j < index + |currentWindow| ensures inputValues[j].Num? {
      assert inputValues[j] == currentWindow[j - index];
    }
    RunLengthReaches(inputValues, index, index + |currentWindow|);
  }

  // ---------------------------------------------------------------------------
  // LowPass

  /** A non-NaN value survives exactly when its run is longer than `longActionsCount`. */
  function KeptAt(xs: seq<Sample>, longActionsCount: int, i: nat): Sample
    requires i < |xs|
  {
    if xs[i].NaN? then NaN
    else if RunAround(xs, i) > longActionsCount then xs[i]
    else NaN
  }

  function LowPassed(xs: seq<Sample>, longActionsCount: int): seq<Sample>
  {
    seq(|xs|, i requires 0 <= i < |xs| => KeptAt(xs, longActionsCount, i))
  }

  method LowPass(inputValues: seq<Sample>, longActionsCount: int) returns (outputValues: seq<Sample>)
    ensures outputValues == LowPassed(inputValues, longActionsCount)
  {
    outputValues := [];
    var i := 0;
    while i < |inputValues|
      invariant 0 <= i <= |inputValues| && |outputValues| == i
      invariant forall j | 0 <= j < i :: outputValues[j] == KeptAt(inputValues, longActionsCount, j)
      invariant i == 0 || i == |inputValues| || inputValues[i - 1].NaN? || inputValues[i].NaN?
    {
      if inputValues[i].NaN? {
        outputValues := outputValues + [NaN];
        i := i + 1;
      } else {
        var currentWindow := ValueWindow(inputValues, i);
        forall j | i <= j < i + |currentWindow|
          ensures RunAround(inputValues, j) == |currentWindow|
        {
          RunOfMaximal(inputValues, i, i + |currentWindow|, j);
        }
        if |currentWindow| > longActionsCount {
          outputValues := outputValues + currentWindow;
        } else {
          outputValues := outputValues + Repeat(NaN, |currentWindow|);
        }
        i := i + |currentWindow| - 1;
        i := i + 1;
      }
    }
  }

  /** On a maximal run `[s, e)` the low pass keeps all values or none. */
  lemma {:induction false} LowPassOnRun(xs: seq<Sample>, longActionsCount: int, s: nat, e: nat)
    requires MaximalRun(xs, s, e)
    ensures forall j | s <= j < e ::
      LowPassed(xs, longActionsCount)[j] == if e - s > longActionsCount then xs[j] else NaN
  {
    forall j | s <= j < e
      ensures LowPassed(xs, longActionsCount)[j] == if e - s > longActionsCount then xs[j] else NaN
    {
      RunOfMaximal(xs, s, e, j);
    }
  }

  /** The low pass keeps the length, only turns values into NaN, and removes nothing on a second pass. */
  lemma {:induction false} LowPassIdempotent(xs: seq<Sample>, longActionsCount: int)
    ensures |LowPassed(xs, longActionsCount)| == |xs|
    ensures forall i | 0 <= i < |xs| ::
      LowPassed(xs, longActionsCount)[i].NaN? || LowPassed(xs, longActionsCount)[i] == xs[i]
    ensures LowPassed(LowPassed(xs, longActionsCount), longActionsCount) == LowPassed(xs, longActionsCount)
  {
    var ys := LowPassed(xs, longActionsCount);
    forall i | 0 <= i < |ys| ensures KeptAt(ys, longActionsCount, i) == ys[i] {
      if ys[i].Num? {
        RunAroundIsMaximal(xs, i);
        var s := RunStart(xs, i);
        var e := s + RunAround(xs, i);
        LowPassOnRun(xs, longActionsCount, s, e);
        assert e - s > longActionsCount;
        assert MaximalRun(ys, s, e);
        RunOfMaximal(ys, s, e, i);
      }
    }
  }

  lemma {:induction false} LowPassExample()
    ensures LowPassed([Num(1.0), Num(1.0), Num(1.0), NaN, Num(1.0), Num(1.0), Num(1.0), Num(1.0), Num(1.0)], 3)
         == [NaN, NaN, NaN, NaN, Num(1.0), Num(1.0), Num(1.0), Num(1.0), Num(1.0)]
  {
    var xs := [Num(1.0), Num(1.0), Num(1.0), NaN, Num(1.0), Num(1.0), Num(1.0), Num(1.0), Num(1.0)];
    assert MaximalRun(xs, 0, 3);
    assert MaximalRun(xs, 4, 9);
    LowPassOnRun(xs, 3, 0, 3);
    LowPassOnRun(xs, 3, 4, 9);
  }

  // ---------------------------------------------------------------------------
  // CalculateStdDev and MovingStdDev

  /**
   * `CalculateStdDev`: the square root of the Bessel-corrected variance. A NaN
   * in the window makes it NaN; one value gives 0/0, NaN; the empty window
   * gives 0/(0 - 1), a zero.
   */
  function StdDev(w: seq<Sample>, sqrt: real -> real): Sample
  {
    if |w| == 0 then Root(Num(0.0), sqrt)
    else if !AllNum(w) then NaN
    else if |w| == 1 then NaN
    else Root(Num(SquaredDeviations(w, Mean(w)) / ((|w| - 1) as real)), sqrt)
  }

  lemma {:induction false} SumOfSingle(w: seq<Sample>)
    requires |w| == 1 && AllNum(w)
    ensures Total(w) == w[0].value
  {
    assert w[..0] == [];
  }

  method CalculateStdDev(inputValues: seq<Sample>, sqrt: real -> real) returns (r: Sample)
    ensures r == StdDev(inputValues, sqrt)
  {
    var n := |inputValues|;
    var variance := Num(0.0);
    var average := Divide(SumOf(inputValues), n as real);

    for i := 0 to n
      invariant average.Num? ==> AllNum(inputValues)
      invariant average.Num? ==> variance == Num(SquaredDeviations(inputValues[..i], average.value))
      invariant average.NaN? ==> variance == if i == 0 then Num(0.0) else NaN
    {
      assert inputValues[..i + 1][..i] == inputValues[..i];
      variance := Plus(variance, Square(Minus(inputValues[i], average)));
    }
    assert inputValues[..n] == inputValues;
    if n == 1 && average.Num? {
      SumOfSingle(inputValues);
      assert average.value == inputValues[0].value;
      assert inputValues[..0] == [];
      assert SquaredDeviations(inputValues, average.value) == 0.0;
      assert variance == Num(0.0);
    }
    variance := Divide(variance, (n - 1) as real);
    r := Root(variance, sqrt);
  }

  /** Element `i` of the moving standard deviation, `i < |xs| - period`. */
  function StdDevAt(xs: seq<Sample>, period: nat, i: nat, sqrt: real -> real): Sample
    requires i + period < |xs|
  {
    if xs[i].NaN? then NaN else StdDev(xs[i..i + period], sqrt)
  }

  /** `MovingStdDev`: a value for each index below `|xs| - period`, then `period` NaNs. */
  function MovingStdDevOf(xs: seq<Sample>, period: nat, sqrt: real -> real): seq<Sample>
  {
    var computed := if |xs| > period then |xs| - period else 0;
    seq(computed + period, i requires 0 <= i < computed + period =>
      if i < computed then StdDevAt(xs, period, i, sqrt) else NaN)
  }

  method MovingStdDev(inputValues: seq<Sample>, period: int, sqrt: real -> real) returns (outputValues: seq<Sample>)
    requires period >= 0
    ensures outputValues == MovingStdDevOf(inputValues, period, sqrt)
  {
    outputValues := [];
    var i := 0;
    while i < |inputValues| - period
      invariant 0 <= i <= if |inputValues| > period then |inputValues| - period else 0
      invariant |outputValues| == i
      invariant forall j | 0 <= j < i :: outputValues[j] == StdDevAt(inputValues, period, j, sqrt)
    {
      if inputValues[i].NaN? {
        outputValues := outputValues + [NaN];
        i := i + 1;
        continue;
      }
      var currentWindow := [];
      for j := 0 to period
        invariant currentWindow == inputValues[i..i + j]
      {
        currentWindow := currentWindow + [inputValues[i + j]];
      }
      var deviation := CalculateStdDev(currentWindow, sqrt);
      outputValues := outputValues + [deviation];
      i := i + 1;
    }
    outputValues := outputValues + Repeat(NaN, period);
  }

  lemma {:induction false} SquaredDeviationsNonNegative(w: seq<Sample>, m: real)
    requires AllNum(w)
    ensures SquaredDeviations(w, m) >= 0.0
  {
    if w != [] {
      SquaredDeviationsNonNegative(w[..|w| - 1], m);
      var d := w[|w| - 1].value - m;
      assert d * d >= 0.0;
    }
  }

  /** A window of at least one value has no deviation exactly when it holds a NaN or has one value. */
  lemma {:induction false} StdDevNaNIff(w: seq<Sample>, sqrt: real -> real)
    requires |w| >= 1
    ensures StdDev(w, sqrt).NaN? <==> !AllNum(w) || |w| == 1
  {
    if AllNum(w) && |w| > 1 {
      SquaredDeviationsNonNegative(w, Mean(w));
    }
  }

  /**
   * The shape of `MovingStdDev`: for `|xs| >= period` the output has `|xs|`
   * entries and the last `period` are NaN; a shorter input gives `period` NaNs.
   * Below `|xs| - period`, a NaN input gives NaN and a number gives the deviation
   * of the `period` values starting there, which is NaN exactly when that window
   * holds a NaN or `period` is one.
   */
  lemma {:induction false} MovingStdDevShape(xs: seq<Sample>, period: nat, sqrt: real -> real)
    ensures |xs| >= period ==> |MovingStdDevOf(xs, period, sqrt)| == |xs|
    ensures |xs| < period ==> |MovingStdDevOf(xs, period, sqrt)| == period
    ensures forall i | 0 <= i < |MovingStdDevOf(xs, period, sqrt)| && |xs| - period <= i ::
      MovingStdDevOf(xs, period, sqrt)[i].NaN?
    ensures forall i | 0 <= i < |xs| - period && xs[i].NaN? :: MovingStdDevOf(xs, period, sqrt)[i].NaN?
    ensures forall i | 0 <= i < |xs| - period && xs[i].Num? && period >= 1 ::
      MovingStdDevOf(xs, period, sqrt)[i].NaN? <==> !AllNum(xs[i..i + period]) || period == 1
  {
    forall i | 0 <= i < |xs| - period && xs[i].Num? && period >= 1
      ensures MovingStdDevOf(xs, period, sqrt)[i].NaN? <==> !AllNum(xs[i..i + period]) || period == 1
    {
      StdDevNaNIff(xs[i..i + period], sqrt);
    }
  }

  // ---------------------------------------------------------------------------
  // Threshold and ConvertToBinary

  function ThresholdValue(x: Sample, threshold: real): Sample
  {
    if Above(x, threshold) then NaN else x
  }

  function Thresholded(xs: seq<Sample>, threshold: real): seq<Sample>
  {
    seq(|xs|, i requires 0 <= i < |xs| => ThresholdValue(xs[i], threshold))
  }

  method Threshold(inputValues: seq<Sample>, threshold: real) returns (outputValues: seq<Sample>)
    ensures outputValues == Thresholded(inputValues, threshold)
  {
    outputValues := [];
    for i := 0 to |inputValues|
      invariant |outputValues| == i
      invariant forall j | 0 <= j < i :: outputValues[j] == ThresholdValue(inputValues[j], threshold)
    {
      if Above(inputValues[i], threshold) {
        outputValues := outputValues + [NaN];
      } else {
        outputValues := outputValues + [inputValues[i]];
      }
    }
  }

  /**
   * Thresholding keeps the length, keeps every NaN, turns exactly the values
   * above the limit into NaN, leaves no value above it, and is idempotent.
   */
  lemma {:induction false} ThresholdProperties(xs: seq<Sample>, threshold: real)
    ensures |Thresholded(xs, threshold)| == |xs|
    ensures forall i | 0 <= i < |xs| ::
      Thresholded(xs, threshold)[i].NaN? <==> xs[i].NaN? || xs[i].value > threshold
    ensures forall i | 0 <= i < |xs| && Thresholded(xs, threshold)[i].Num? ::
      Thresholded(xs, threshold)[i] == xs[i] && xs[i].value <= threshold
    ensures Thresholded(Thresholded(xs, threshold), threshold) == Thresholded(xs, threshold)
  {
  }

  function Binary(xs: seq<Sample>): seq<Sample>
  {
    seq(|xs|, i requires 0 <= i < |xs| => if xs[i].NaN? then NaN else Num(1.0))
  }

  method ConvertToBinary(inputValues: seq<Sample>) returns (outputValues: seq<Sample>)
    ensures outputValues == Binary(inputValues)
  {
    outputValues := [];
    for i := 0 to |inputValues|
      invariant outputValues == Binary(inputValues[..i])
    {
      var value := inputValues[i];
      outputValues := outputValues + [if value.NaN? then NaN else Num(1.0)];
    }
    assert inputValues[..|inputValues|] == inputValues;
  }

  /** Every non-NaN value becomes 1, NaN positions are exactly kept, and a second pass changes nothing. */
  lemma {:induction false} BinaryProperties(xs: seq<Sample>)
    ensures |Binary(xs)| == |xs|
    ensures forall i | 0 <= i < |xs| :: Binary(xs)[i].NaN? <==> xs[i].NaN?
    ensures forall i | 0 <= i < |xs| && Binary(xs)[i].Num? :: Binary(xs)[i] == Num(1.0)
    ensures Binary(Binary(xs)) == Binary(xs)
  {
  }

  lemma {:induction false} BinaryExample()
    ensures Binary([Num(2.5), NaN, Num(0.0)]) == [Num(1.0), NaN, Num(1.0)]
  {
  }

  // ---------------------------------------------------------------------------
  // Buffer

  /**
   * The values emitted before a run whose average is `average`: when more
   * than `bufferLength` values were emitted, the last `bufferLength` of them are
   * overwritten with the average.
   */
  function Lead(out: seq<Sample>, average: Sample, bufferLength: nat): (r: seq<Sample>)
    ensures |r| == |out|
    ensures forall j | 0 <= j < |out| ::
      r[j] == if |out| > bufferLength && j >= |out| - bufferLength then average else out[j]
  {
    if |out| > bufferLength then out[..|out| - bufferLength] + Repeat(average, bufferLength) else out
  }

  /**
   * The end of the scan once too little room is left after `body`: the
   * `windowLength` averages if they fit strictly inside the series, then the
   * average up to the end of the series.
   */
  function Finish(n: nat, body: seq<Sample>, average: Sample, windowLength: nat): (r: seq<Sample>)
    requires |body| <= n
    ensures |r| == n
    ensures r[..|body|] == body
    ensures forall j | |body| <= j < n :: r[j] == average
  {
    var padded := if n > |body| + windowLength then body + Repeat(average, windowLength) else body;
    padded + Repeat(average, n - |padded|)
  }

  /** The average of the run starting at the number at `i`. */
  function RunAverage(xs: seq<Sample>, i: nat): (average: Sample)
    requires i < |xs| && xs[i].Num?
    ensures average.Num?
  {
    var window := xs[i..i + RunLength(xs, i)];
    assert AllNum(window);
    Num(Mean(window))
  }

  /** The output once the run starting at the number at `i` is emitted after the lead. */
  function RunBody(xs: seq<Sample>, bufferLength: nat, i: nat, out: seq<Sample>): (body: seq<Sample>)
    requires i < |xs| && xs[i].Num? && |out| == i
    ensures |body| == i + RunLength(xs, i)
  {
    Lead(out, RunAverage(xs, i), bufferLength) + xs[i..i + RunLength(xs, i)]
  }

  /**
   * The scan of `Buffer` from position `i`, with `out` emitted so far. At a
   * NaN it emits NaN. At a number it emits the `Lead` and the run starting
   * there, and then emits `windowLength + bufferLength` copies of the run's
   * average and continues after them if that leaves room; otherwise it
   * finishes the series with the average.
   */
  function BufferScan(xs: seq<Sample>, windowLength: nat, bufferLength: nat, i: nat, out: seq<Sample>): seq<Sample>
    requires i <= |xs| && |out| == i
    decreases |xs| - i
  {
    if i == |xs| then out
    else if xs[i].NaN? then BufferScan(xs, windowLength, bufferLength, i + 1, out + [NaN])
    else
      var average := RunAverage(xs, i);
      var body := RunBody(xs, bufferLength, i, out);
      if |xs| > |body| + windowLength + bufferLength then
        var next := body + Repeat(average, windowLength) + Repeat(average, bufferLength);
        BufferScan(xs, windowLength, bufferLength, |next|, next)
      else
        Finish(|xs|, body, average, windowLength)
  }

  function Buffered(xs: seq<Sample>, windowLength: nat, bufferLength: nat): seq<Sample>
  {
    BufferScan(xs, windowLength, bufferLength, 0, [])
  }

  method Buffer(inputValues: seq<Sample>, windowLength: int, bufferLength: int) returns (outputValues: seq<Sample>)
    requires windowLength >= 0 && bufferLength >= 0
    ensures outputValues == Buffered(inputValues, windowLength, bufferLength)
  {
    outputValues := [];
    var i := 0;
    while i < |inputValues|
      invariant 0 <= i <= |inputValues|
      invariant |outputValues| == i
      invariant BufferScan(inputValues, windowLength, bufferLength, |outputValues|, outputValues)
             == Buffered(inputValues, windowLength, bufferLength)
    {
      if inputValues[i].NaN? {
        outputValues := outputValues + [NaN];
        i := i + 1;
      } else {
        var finished;
        outputValues, i, finished := BufferAction(inputValues, windowLength, bufferLength, i, outputValues);
        if finished {
          break;
        }
      }
    }
  }

  /**
   * The body of `Buffer`'s loop at a number: overwrite the lead, copy the run,
   * and either pad after it and continue, or finish the series.
   */
  method BufferAction(inputValues: seq<Sample>, windowLength: nat, bufferLength: nat, start: nat, emitted: seq<Sample>)
    returns (outputValues: seq<Sample>, i: nat, finished: bool)
    requires start < |inputValues| && inputValues[start].Num? && |emitted| == start
    ensures finished ==> outputValues == BufferScan(inputValues, windowLength, bufferLength, start, emitted)
    ensures !finished ==> start < i <= |inputValues| && |outputValues| == i
    ensures !finished ==> (BufferScan(inputValues, windowLength, bufferLength, i, outputValues)
                           == BufferScan(inputValues, windowLength, bufferLength, start, emitted))
  {
    outputValues := emitted;
    var currentWindow := ValueWindow(inputValues, start);
    var average := Mean(currentWindow);
    var bufferList := Repeat(Num(average), bufferLength);
    var stdDevWindow := Repeat(Num(average), windowLength);

    if |outputValues| > bufferLength {
      outputValues := outputValues[..|outputValues| - bufferLength];
      outputValues := outputValues + bufferList;
    }
    assert Num(average) == RunAverage(inputValues, start);
    assert outputValues == Lead(emitted, Num(average), bufferLength) by {
      if |emitted| > bufferLength {
        assert outputValues == emitted[..|emitted| - bufferLength] + Repeat(Num(average), bufferLength);
      }
    }

    outputValues := outputValues + currentWindow;
    i := start + |currentWindow| - 1;
    ghost var body := outputValues;
    assert body == RunBody(inputValues, bufferLength, start, emitted);
    BufferScanAtRun(inputValues, windowLength, bufferLength, start, emitted);

    if |inputValues| > |outputValues| + windowLength + bufferLength {
      outputValues := outputValues + stdDevWindow;
      outputValues := outputValues + bufferList;
      i := i + windowLength + bufferLength;
      assert outputValues == body + Repeat(Num(average), windowLength) + Repeat(Num(average), bufferLength);
      finished := false;
    } else {
      if |inputValues| > |outputValues| + windowLength {
        outputValues := outputValues + stdDevWindow;
      }
      var fillerList := Repeat(Num(average), |inputValues| - |outputValues|);
      outputValues := outputValues + fillerList;
      assert outputValues == Finish(|inputValues|, body, Num(average), windowLength);
      finished := true;
    }
    i := i + 1;
  }

  /** Every non-NaN series value equals one. */
  predicate OnesWhereNum(s: seq<Sample>)
  {
    forall j | 0 <= j < |s| :: s[j].Num? ==> s[j] == Num(1.0)
  }

  /** Position `j` lies at most `bufferLength` before or `windowLength + bufferLength` after a number of `xs`. */
  ghost predicate NearNumber(xs: seq<Sample>, windowLength: nat, bufferLength: nat, j: int)
  {
    exists k | 0 <= k < |xs| :: xs[k].Num? && j <= k + windowLength + bufferLength && k <= j + bufferLength
  }

  /** What the scan keeps true of the output emitted so far. */
  ghost predicate Widened(xs: seq<Sample>, windowLength: nat, bufferLength: nat, out: seq<Sample>)
  {
    && |out| <= |xs|
    && (forall j | 0 <= j < |out| :: xs[j].Num? ==> out[j].Num?)
    && (forall j | 0 <= j < |out| :: out[j].Num? ==> NearNumber(xs, windowLength, bufferLength, j))
    && (OnesWhereNum(xs) ==> OnesWhereNum(out))
  }

  /** The average a run pads with: a number, and one when the series is binary. */
  ghost predicate PadValue(xs: seq<Sample>, average: Sample)
  {
    average.Num? && (OnesWhereNum(xs) ==> average == Num(1.0))
  }

  lemma {:induction false} WidenedByNaN(xs: seq<Sample>, windowLength: nat, bufferLength: nat, out: seq<Sample>)
    requires Widened(xs, windowLength, bufferLength, out)
    requires |out| < |xs| && xs[|out|].NaN?
    ensures Widened(xs, windowLength, bufferLength, out + [NaN])
  {
  }

  /** The lead before the number at `|out|`. */
  lemma {:induction false} WidenedByLead(xs: seq<Sample>, windowLength: nat, bufferLength: nat, out: seq<Sample>, average: Sample)
    requires Widened(xs, windowLength, bufferLength, out)
    requires |out| < |xs| && xs[|out|].Num? && PadValue(xs, average)
    ensures Widened(xs, windowLength, bufferLength, Lead(out, average, bufferLength))
  {
    var k := |out|;
    forall j | 0 <= j < |out| && Lead(out, average, bufferLength)[j].Num?
      ensures NearNumber(xs, windowLength, bufferLength, j)
    {
      if |out| > bufferLength && j >= |out| - bufferLength {
        assert xs[k].Num? && j <= k + windowLength + bufferLength && k <= j + bufferLength;
      }
    }
  }

  /** Emitting the run `xs[|out|..|out| + m]` itself. */
  lemma {:induction false} WidenedByRun(xs: seq<Sample>, windowLength: nat, bufferLength: nat, out: seq<Sample>, m: nat)
    requires Widened(xs, windowLength, bufferLength, out)
    requires |out| + m <= |xs|
    ensures Widened(xs, windowLength, bufferLength, out + xs[|out|..|out| + m])
  {
    var r := out + xs[|out|..|out| + m];
    forall j | |out| <= j < |r| && r[j].Num?
      ensures NearNumber(xs, windowLength, bufferLength, j)
    {
      assert r[j] == xs[j];
    }
  }

  /** Emitting `count` averages after the number at `last`, all within `windowLength + bufferLength` of it. */
  lemma {:induction false} WidenedByPad(xs: seq<Sample>, windowLength: nat, bufferLength: nat, out: seq<Sample>,
                     average: Sample, count: nat, last: nat)
    requires Widened(xs, windowLength, bufferLength, out)
    requires |out| + count <= |xs| && |out| + count <= last + 1 + windowLength + bufferLength
    requires last < |out| && xs[last].Num? && PadValue(xs, average)
    ensures Widened(xs, windowLength, bufferLength, out + Repeat(average, count))
  {
    var r := out + Repeat(average, count);
    forall j | |out| <= j < |r|
      ensures NearNumber(xs, windowLength, bufferLength, j)
    {
      assert xs[last].Num? && j <= last + windowLength + bufferLength && last <= j + bufferLength;
    }
  }

  /** The end of the scan, when it is within `windowLength + bufferLength` of the number at `last`. */
  lemma {:induction false} WidenedByFinish(xs: seq<Sample>, windowLength: nat, bufferLength: nat, body: seq<Sample>,
                        average: Sample, last: nat)
    requires Widened(xs, windowLength, bufferLength, body)
    requires |xs| <= |body| + windowLength + bufferLength
    requires last + 1 == |body| && xs[last].Num? && PadValue(xs, average)
    ensures Widened(xs, windowLength, bufferLength, Finish(|xs|, body, average, windowLength))
  {
    var r := Finish(|xs|, body, average, windowLength);
    forall j | 0 <= j < |body| ensures r[j] == body[j] {
      assert r[..|body|][j] == r[j];
    }
    forall j | |body| <= j < |xs|
      ensures NearNumber(xs, windowLength, bufferLength, j)
    {
      assert xs[last].Num? && j <= last + windowLength + bufferLength && last <= j + bufferLength;
    }
  }

  /** The average of a run is one when the series is binary. */
  lemma {:induction false} RunAverageOfOnes(xs: seq<Sample>, i: nat)
    requires i < |xs| && xs[i].Num?
    ensures PadValue(xs, RunAverage(xs, i))
  {
    var window := xs[i..i + RunLength(xs, i)];
    assert AllNum(window);
    if OnesWhereNum(xs) {
      assert forall j | 0 <= j < |window| :: window[j] == Num(1.0);
      MeanOfOnes(window);
    }
  }

  /** The lead and the run keep what the scan promises. */
  lemma {:induction false} WidenedByBody(xs: seq<Sample>, windowLength: nat, bufferLength: nat, i: nat, out: seq<Sample>)
    requires i < |xs| && xs[i].Num? && |out| == i
    requires Widened(xs, windowLength, bufferLength, out)
    ensures Widened(xs, windowLength, bufferLength, RunBody(xs, bufferLength, i, out))
  {
    var average := RunAverage(xs, i);
    RunAverageOfOnes(xs, i);
    var lead := Lead(out, average, bufferLength);
    WidenedByLead(xs, windowLength, bufferLength, out, average);
    WidenedByRun(xs, windowLength, bufferLength, lead, RunLength(xs, i));
  }

  /** One step of the scan at a number, with the run's body and average named. */
  lemma {:induction false} BufferScanAtRun(xs: seq<Sample>, windowLength: nat, bufferLength: nat, i: nat, out: seq<Sample>)
    requires i < |xs| && |out| == i && xs[i].Num?
    ensures var body := RunBody(xs, bufferLength, i, out);
            var average := RunAverage(xs, i);
            BufferScan(xs, windowLength, bufferLength, i, out)
            == if |xs| > |body| + windowLength + bufferLength
               then var next := body + Repeat(average, windowLength) + Repeat(average, bufferLength);
                    BufferScan(xs, windowLength, bufferLength, |next|, next)
               else Finish(|xs|, body, average, windowLength)
  {
  }

  lemma {:induction false} BufferScanWidens(xs: seq<Sample>, windowLength: nat, bufferLength: nat, i: nat, out: seq<Sample>)
    requires i <= |xs| && |out| == i
    requires Widened(xs, windowLength, bufferLength, out)
    ensures |BufferScan(xs, windowLength, bufferLength, i, out)| == |xs|
    ensures Widened(xs, windowLength, bufferLength, BufferScan(xs, windowLength, bufferLength, i, out))
    decreases |xs| - i
  {
    if i == |xs| {
    } else if xs[i].NaN? {
      WidenedByNaN(xs, windowLength, bufferLength, out);
      BufferScanWidens(xs, windowLength, bufferLength, i + 1, out + [NaN]);
    } else {
      var average := RunAverage(xs, i);
      var body := RunBody(xs, bufferLength, i, out);
      var last := i + RunLength(xs, i) - 1;
      WidenedByBody(xs, windowLength, bufferLength, i, out);
      BufferScanAtRun(xs, windowLength, bufferLength, i, out);
      if |xs| > |body| + windowLength + bufferLength {
        var next := body + Repeat(average, windowLength) + Repeat(average, bufferLength);
        assert Widened(xs, windowLength, bufferLength, next) by {
          RunAverageOfOnes(xs, i);
          WidenedByPad(xs, windowLength, bufferLength, body, average, windowLength, last);
          WidenedByPad(xs, windowLength, bufferLength, body + Repeat(average, windowLength), average, bufferLength, last);
        }
        BufferScanWidens(xs, windowLength, bufferLength, |next|, next);
      } else {
        assert Widened(xs, windowLength, bufferLength, Finish(|xs|, body, average, windowLength)) by {
          RunAverageOfOnes(xs, i);
          WidenedByFinish(xs, windowLength, bufferLength, body, average, last);
        }
      }
    }
  }

  /**
   * `Buffer` keeps the length; every number of the input is a number of the
   * output (runs only widen); every new number lies at most `bufferLength`
   * before or `windowLength + bufferLength` after a number of the input; and
   * when the input is binary the output is binary too, since padding is the
   * run's average.
   */
  lemma {:induction false} BufferProperties(xs: seq<Sample>, windowLength: nat, bufferLength: nat)
    ensures |Buffered(xs, windowLength, bufferLength)| == |xs|
    ensures forall j | 0 <= j < |xs| :: xs[j].Num? ==> Buffered(xs, windowLength, bufferLength)[j].Num?
    ensures forall j | 0 <= j < |xs| :: Buffered(xs, windowLength, bufferLength)[j].Num? ==>
      exists k | 0 <= k < |xs| :: xs[k].Num? && j <= k + windowLength + bufferLength && k <= j + bufferLength
    ensures OnesWhereNum(xs) ==> OnesWhereNum(Buffered(xs, windowLength, bufferLength))
  {
    BufferScanWidens(xs, windowLength, bufferLength, 0, []);
    var r := Buffered(xs, windowLength, bufferLength);
    forall j | 0 <= j < |xs| && r[j].Num?
      ensures exists k | 0 <= k < |xs| :: xs[k].Num? && j <= k + windowLength + bufferLength && k <= j + bufferLength
    {
      assert NearNumber(xs, windowLength, bufferLength, j);
    }
  }

  /** A one of a binary input is a one of the buffered output. */
  lemma {:induction false} BufferKeepsOne(xs: seq<Sample>, windowLength: nat, bufferLength: nat, i: nat)
    requires OnesWhereNum(xs) && i < |xs| && xs[i].Num?
    ensures |Buffered(xs, windowLength, bufferLength)| == |xs|
    ensures Buffered(xs, windowLength, bufferLength)[i] == Num(1.0)
  {
    BufferProperties(xs, windowLength, bufferLength);
  }

  /** Each run of the input lies inside the run of the buffered output around the same position. */
  lemma {:induction false} BufferRunsOnlyWiden(xs: seq<Sample>, windowLength: nat, bufferLength: nat, i: nat)
    requires i < |xs| && xs[i].Num?
    ensures |Buffered(xs, windowLength, bufferLength)| == |xs|
    ensures RunStart(Buffered(xs, windowLength, bufferLength), i) <= RunStart(xs, i)
    ensures RunStart(xs, i) + RunAround(xs, i)
         <= RunStart(Buffered(xs, windowLength, bufferLength), i) + RunAround(Buffered(xs, windowLength, bufferLength), i)
  {
    BufferProperties(xs, windowLength, bufferLength);
    RunsOnlyWiden(xs, Buffered(xs, windowLength, bufferLength), i);
  }
}
