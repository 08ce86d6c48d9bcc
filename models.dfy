/**
 * The tunable parameters and their default table. A `Parameter` is a shared
 * mutable object: the view models write its value through references, and
 * the default table hands out the very same objects on every request.
 */
module Models {

  /** A named setting with its bounds. Only the value is ever written after construction. */
  class Parameter {
    const name: string
    var value: real
    const minimum: real
    const maximum: real

    constructor (name: string, value: real, minimum: real, maximum: real)
      ensures this.name == name && this.value == value
      ensures this.minimum == minimum && this.maximum == maximum
    {
      this.name := name;
      this.value := value;
      this.minimum := minimum;
      this.maximum := maximum;
    }

    /** The parameter currently holds `spec`. */
    predicate Holds(spec: ParameterSpec)
      reads this
    {
      name == spec.name && value == spec.value && minimum == spec.minimum && maximum == spec.maximum
    }
  }

  /** The constructor arguments of one default parameter. */
  datatype ParameterSpec = ParameterSpec(name: string, value: real, minimum: real, maximum: real)
  {
    predicate InBounds()
    {
      minimum <= value <= maximum
    }
  }

  const LongActionDurationDefault := ParameterSpec("Long Action Duration [s]", 2.0, 0.0, 10.0)
  const StdDevWindowDurationDefault := ParameterSpec("Standard Deviation Window Duration [s]", 2.0, 0.0, 10.0)
  const BufferDurationDefault := ParameterSpec("Buffer Duration [s]", 0.5, 0.0, 2.0)
  const MedianWindowLengthDefault := ParameterSpec("Median Window Length [frames]", 10.0, 0.0, 20.0)
  const PixelThresholdDefault := ParameterSpec("Hand Pixel Threshold [px]", 10000.0, 0.0, 100000.0)
  const HueThreshold1Default := ParameterSpec("Hue Threshold 1 [-]", 0.0, 0.0, 180.0)
  const HueThreshold2Default := ParameterSpec("Hue Threshold 2 [-]", 30.0, 0.0, 180.0)
  const HueThreshold3Default := ParameterSpec("Hue Threshold 3 [-]", 160.0, 0.0, 180.0)
  const HueThreshold4Default := ParameterSpec("Hue Threshold 4 [-]", 180.0, 0.0, 180.0)
  const ErosionSizeDefault := ParameterSpec("Erosion Size [px]", 5.0, 0.0, 10.0)
  const ErosionIterationsDefault := ParameterSpec("Erosion Iterations [-]", 3.0, 0.0, 10.0)

  /** The defaults `GetParameters` hands out, in its order; the detector settings are commented out there. */
  const ReturnedDefaults := [LongActionDurationDefault, StdDevWindowDurationDefault,
                             BufferDurationDefault, MedianWindowLengthDefault]

  /** Every default lies within its own bounds, and the hue thresholds ascend. */
  lemma {:induction false} DefaultsWithinBounds()
    ensures |ReturnedDefaults| == 4
    ensures forall k | 0 <= k < |ReturnedDefaults| :: ReturnedDefaults[k].InBounds()
    ensures PixelThresholdDefault.InBounds()
    ensures HueThreshold1Default.InBounds() && HueThreshold2Default.InBounds()
    ensures HueThreshold3Default.InBounds() && HueThreshold4Default.InBounds()
    ensures HueThreshold1Default.value <= HueThreshold2Default.value
         <= HueThreshold3Default.value <= HueThreshold4Default.value
    ensures ErosionSizeDefault.InBounds() && ErosionIterationsDefault.InBounds()
  {
  }

  /**
   * The static default table. Its readonly fields are fixed references; the
   * program has exactly one table, which callers are handed explicitly.
   */
  class StandardParameters {
    const longActionDuration: Parameter
    const stdDevWindowDuration: Parameter
    const bufferDuration: Parameter
    const medianWindowLength: Parameter
    const pixelThreshold: Parameter
    const hueThreshold1: Parameter
    const hueThreshold2: Parameter
    const hueThreshold3: Parameter
    const hueThreshold4: Parameter
    const erosionSize: Parameter
    const erosionIterations: Parameter

    /** The four objects `GetParameters` returns are four different objects. */
    predicate Distinct()
    {
      && longActionDuration != stdDevWindowDuration && longActionDuration != bufferDuration
      && longActionDuration != medianWindowLength && stdDevWindowDuration != bufferDuration
      && stdDevWindowDuration != medianWindowLength && bufferDuration != medianWindowLength
    }

    constructor ()
      ensures Distinct()
      ensures longActionDuration.Holds(LongActionDurationDefault)
      ensures stdDevWindowDuration.Holds(StdDevWindowDurationDefault)
      ensures bufferDuration.Holds(BufferDurationDefault)
      ensures medianWindowLength.Holds(MedianWindowLengthDefault)
      ensures pixelThreshold.Holds(PixelThresholdDefault)
      ensures hueThreshold1.Holds(HueThreshold1Default) && hueThreshold2.Holds(HueThreshold2Default)
      ensures hueThreshold3.Holds(HueThreshold3Default) && hueThreshold4.Holds(HueThreshold4Default)
      ensures erosionSize.Holds(ErosionSizeDefault) && erosionIterations.Holds(ErosionIterationsDefault)
      ensures fresh(longActionDuration) && fresh(stdDevWindowDuration)
      ensures fresh(bufferDuration) && fresh(medianWindowLength)
    {
      var longActionDuration0 := NewParameter(LongActionDurationDefault);
      var stdDevWindowDuration0 := NewParameter(StdDevWindowDurationDefault);
      var bufferDuration0 := NewParameter(BufferDurationDefault);
      var medianWindowLength0 := NewParameter(MedianWindowLengthDefault);
      var pixelThreshold0 := NewParameter(PixelThresholdDefault);
      var hueThreshold10 := NewParameter(HueThreshold1Default);
      var hueThreshold20 := NewParameter(HueThreshold2Default);
      var hueThreshold30 := NewParameter(HueThreshold3Default);
      var hueThreshold40 := NewParameter(HueThreshold4Default);
      var erosionSize0 := NewParameter(ErosionSizeDefault);
      var erosionIterations0 := NewParameter(ErosionIterationsDefault);
      longActionDuration := longActionDuration0;
      stdDevWindowDuration := stdDevWindowDuration0;
      bufferDuration := bufferDuration0;
      medianWindowLength := medianWindowLength0;
      pixelThreshold := pixelThreshold0;
      hueThreshold1 := hueThreshold10;
      hueThreshold2 := hueThreshold20;
      hueThreshold3 := hueThreshold30;
      hueThreshold4 := hueThreshold40;
      erosionSize := erosionSize0;
      erosionIterations := erosionIterations0;
    }

    /**
     * A new list on every call, holding the same four shared objects: writes
     * through an element of one result are visible through every other.
     */
    method GetParameters() returns (parameters: seq<Parameter>)
      ensures |parameters| == 4
      ensures parameters[0] == longActionDuration && parameters[1] == stdDevWindowDuration
      ensures parameters[2] == bufferDuration && parameters[3] == medianWindowLength
    {
      parameters := [longActionDuration, stdDevWindowDuration, bufferDuration, medianWindowLength];
    }
  }

  /**
   * Four new parameter objects holding the defaults `GetParameters` hands out,
   * in its order; unlike `GetParameters`, nothing else refers to them.
   */
  method FreshDefaults() returns (parameters: seq<Parameter>)
    ensures |parameters| == |ReturnedDefaults|
    ensures forall k | 0 <= k < |parameters| :: fresh(parameters[k]) && parameters[k].Holds(ReturnedDefaults[k])
    ensures forall j, k | 0 <= j < k < |parameters| :: parameters[j] != parameters[k]
  {
    var p0 := NewParameter(LongActionDurationDefault);
    var p1 := NewParameter(StdDevWindowDurationDefault);
    var p2 := NewParameter(BufferDurationDefault);
    var p3 := NewParameter(MedianWindowLengthDefault);
    parameters := [p0, p1, p2, p3];
  }

  /**
   * The explicit conversion of a real to an integer: truncation toward zero,
   * as C# converts a floating point value to `int`.
   */
  function Trunc(x: real): (r: int)
    ensures 0.0 <= x ==> 0 <= r && r as real <= x < r as real + 1.0
    ensures x < 0.0 ==> r <= 0 && r as real - 1.0 < x <= r as real
    ensures x == x.Floor as real ==> r as real == x
  {
    if x >= 0.0 || x == x.Floor as real then x.Floor else x.Floor + 1
  }

  /** An integral value converts exactly. */
  lemma {:induction false} TruncOfInt(n: int)
    ensures Trunc(n as real) == n
  {
  }

  /** A new parameter object holding `spec`. */
  method NewParameter(spec: ParameterSpec) returns (p: Parameter)
    ensures fresh(p) && p.Holds(spec)
  {
    p := new Parameter(spec.name, spec.value, spec.minimum, spec.maximum);
  }
}
