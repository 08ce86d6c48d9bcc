# Hand–gaze distance analysis, modelled in Dafny

WpfHandGazeDistance measures, frame by frame, the distance between a user's
gaze point and their hand in an eye-tracking video. It then turns that raw
distance series into a timeline of "usability issues": stretches where the
hand rests close to the gaze point for a long time without moving much.
This project models the series pipeline that does this, and the view-model
code around it:

- the parameter table and its defaults;
- the parameter editor (clamping setters, the list it keeps, reset, the CSV
  header and rows it writes, the row split it reads back);
- the settings the analysis derives from the parameter list;
- the composition of the pipeline;
- the time axis rebuilt after loading a record;
- the shortened path shown in the window.

## Layout

| file | module | contents |
|---|---|---|
| `series.dfy` | `Series` | the `Sample` type (`NaN` or a number) and float arithmetic on it; sums and means of windows; the sort order of `List<float>.Sort` (NaN below every number) with a functional insertion sort; the runs of non-NaN values every stage reasons about |
| `manipulations.dfy` | `HgdManipulations` | every stage of `HgdManipulations.cs` as an imperative method with loops, each proved equal to a specification function, and lemmas about those functions |
| `models.dfy` | `Models` | `Parameter` (a shared mutable object), the eleven defaults of `StandardParameters.cs`, the default table as a class, and C#'s truncating conversion to `int` |
| `parameters_view_model.dfy` | `ParametersViewModels` | the parameter editor as a class over shared `Parameter` objects, the CSV header and row text, and the row split |
| `hgd_view_model.dfy` | `HgdViewModels` | the analysis record, the settings derivation, the pipeline composition, `AnalyseData`, `LoadHgd` and `ShortenPath` |

## How the model works

- **Samples.** A sample is `NaN` or `Num(r)` for a real `r`. Float rounding
  is not modelled. `Math.Sqrt` is a parameter `sqrt: real -> real`; `Root`
  adds its NaN cases (NaN and negative arguments).
- **Stages.** Each stage of `HgdManipulations.cs` (`PruneValues`,
  `MovingMedian`, `LowPass`, `MovingStdDev`, `Threshold`, `ConvertToBinary`,
  `Buffer`, `CalculateStdDev`, `ValueWindow`, and the two time-axis
  builders) is a method. It keeps the source's loop, jumps and breaks. Its
  `ensures` ties the result to a specification function (`Pruned`,
  `MovingMedianOf`, `LowPassed`, `MovingStdDevOf`, `Thresholded`, `Binary`,
  `Buffered`, `StdDev`, `TimeAxis`). Lemmas then prove what the stage means
  about that function.
- **Median.** `MovingMedian` sorts every window. The sort is modelled as
  `SortSamples`, which is proved sorted and a permutation. Sorted
  permutations are unique, so the median depends only on the window's
  multiset. Because NaN sorts first, the median is NaN exactly when at least
  half of the window is NaN.
- **Low pass.** `LowPass` is specified per position: a value survives
  exactly when the maximal run of non-NaN values around it is longer than
  the count. The lemma `LowPassOnRun` states this run by run.
- **Buffer.** `Buffer` is specified by a recursive scan, `BufferScan`, that
  follows the source's branches. It is proved to:
  - keep the length;
  - keep every number;
  - widen each run by at most the window plus the buffer on the right and
    the buffer on the left;
  - keep a series of ones a series of ones.
- **Parameters.** The parameter editor is a class. Its four fields refer to
  `Parameter` objects that the default table also holds. Every setter writes
  through such a reference, which is where the reset finding below comes
  from.

In a few places the code does something its own doc comments do not say,
and the model follows the code:

- For an odd period the median index is `(int)(period / 2 + 0.5)`. With
  integer division this is `period / 2`, the true middle, not the element
  after it. The doc comment of `MovingMedian` (HgdManipulations.cs:62-63)
  asks for the middle value and does not mention the rounding.
- `MovingStdDev` computes a value for every index below
  `|input| - period`, with no skipping. Its doc comment
  (HgdManipulations.cs:134-136) says the window advances only when enough
  values are available. It then appends `period` NaNs, so an
  input shorter than the period gives a series of length `period`, not the
  input's length (`HgdViewModels.PipelineLengths`).
- The buffered series uses the deviation period as its window. Where the
  input is shorter than one window, it is as long as the window too.

## Model

| member | source | states |
|---|---|---|
| `HgdManipulations.TimeAxisSpacing` | WpfHandGazeDistance/WpfHandGazeDistance/Helpers/HgdManipulations.cs:36-40 | the time axis starts at 0 and consecutive instants are `1000 / fps` milliseconds apart |
| `HgdManipulations.RecordingTimeFromConstant` | WpfHandGazeDistance/WpfHandGazeDistance/Helpers/HgdManipulations.cs:32-43 | returns one instant per frame, `i * 1000 / fps` for `i` below the length, and nothing for a non-positive length |
| `HgdManipulations.RecordingTimeFromVideo` | WpfHandGazeDistance/WpfHandGazeDistance/Helpers/HgdManipulations.cs:16-30 | without a detector the axis is empty; otherwise it has one instant per video frame at the video's frame rate |
| `HgdManipulations.PruneValues` | WpfHandGazeDistance/WpfHandGazeDistance/Helpers/HgdManipulations.cs:45-55 | keeps the length and replaces exactly the values within 0.0001 of -1 by NaN, leaving the rest unchanged |
| `HgdManipulations.PruneIdempotent` | WpfHandGazeDistance/WpfHandGazeDistance/Helpers/HgdManipulations.cs:45-55 | a pruned value is NaN iff it was NaN or the -1 sentinel, numbers are unchanged, and pruning twice equals pruning once |
| `HgdManipulations.MovingMedian` | WpfHandGazeDistance/WpfHandGazeDistance/Helpers/HgdManipulations.cs:68-93 | the nested loops compute, for each index, NaN before a full window and otherwise the median of the sorted trailing window |
| `HgdManipulations.TrailingWindowMultiset` | WpfHandGazeDistance/WpfHandGazeDistance/Helpers/HgdManipulations.cs:78-80 | the backward collection loop gathers exactly the values of the slice ending at `i` |
| `HgdManipulations.MedianFromMultiset` | WpfHandGazeDistance/WpfHandGazeDistance/Helpers/HgdManipulations.cs:78-87 | the median depends only on the multiset of values in the window |
| `HgdManipulations.MedianNaNIff` | WpfHandGazeDistance/WpfHandGazeDistance/Helpers/HgdManipulations.cs:81-87 | a full window's median is NaN iff at least half of the window is NaN |
| `HgdManipulations.MedianOfThree` | WpfHandGazeDistance/WpfHandGazeDistance/Helpers/HgdManipulations.cs:84-87 | with period three and ascending neighbours the median is the middle value |
| `HgdManipulations.MovingMedianExample` | WpfHandGazeDistance/WpfHandGazeDistance/Helpers/HgdManipulations.cs:68-93 | the moving median of 1..5 with period 3 is NaN, NaN, 2, 3, 4 |
| `HgdManipulations.ValueWindow` | WpfHandGazeDistance/WpfHandGazeDistance/Helpers/HgdManipulations.cs:288-306 | returns the maximal run of numbers starting at the index: empty at a NaN, a slice of the input, all numbers, ended by a NaN or the end |
| `HgdManipulations.LowPass` | WpfHandGazeDistance/WpfHandGazeDistance/Helpers/HgdManipulations.cs:103-131 | the loop that jumps over each run computes, per position, the value when its run is longer than the count and NaN otherwise |
| `HgdManipulations.LowPassOnRun` | WpfHandGazeDistance/WpfHandGazeDistance/Helpers/HgdManipulations.cs:115-127 | a maximal run is kept whole when longer than the count and replaced whole by NaNs otherwise |
| `HgdManipulations.LowPassIdempotent` | WpfHandGazeDistance/WpfHandGazeDistance/Helpers/HgdManipulations.cs:103-131 | the low pass keeps the length, only ever replaces values by NaN, and applied twice equals applied once |
| `HgdManipulations.LowPassExample` | WpfHandGazeDistance/WpfHandGazeDistance/Helpers/HgdManipulations.cs:103-131 | with count 3 a run of three ones is removed and a run of five is kept |
| `HgdManipulations.CalculateStdDev` | WpfHandGazeDistance/WpfHandGazeDistance/Helpers/HgdManipulations.cs:273-286 | the accumulation loop computes the Bessel-corrected standard deviation, NaN for a window with a NaN or a single value |
| `HgdManipulations.SumOfSingle` | WpfHandGazeDistance/WpfHandGazeDistance/Helpers/HgdManipulations.cs:276 | the sum of a one-value window is that value |
| `HgdManipulations.SquaredDeviationsNonNegative` | WpfHandGazeDistance/WpfHandGazeDistance/Helpers/HgdManipulations.cs:278-281 | the accumulated variance is never negative, so the square root is defined |
| `HgdManipulations.StdDevNaNIff` | WpfHandGazeDistance/WpfHandGazeDistance/Helpers/HgdManipulations.cs:273-286 | a non-empty window's deviation is NaN iff it holds a NaN or a single value |
| `HgdManipulations.MovingStdDev` | WpfHandGazeDistance/WpfHandGazeDistance/Helpers/HgdManipulations.cs:141-163 | computes a deviation for each index below `|input| - period`, written at the window's start, NaN at a NaN start, then `period` NaNs |
| `HgdManipulations.MovingStdDevShape` | WpfHandGazeDistance/WpfHandGazeDistance/Helpers/HgdManipulations.cs:141-163 | length is the input's, or the period when shorter; every tail position is NaN; a computed value is NaN iff its window holds a NaN or the period is 1 |
| `HgdManipulations.Threshold` | WpfHandGazeDistance/WpfHandGazeDistance/Helpers/HgdManipulations.cs:172-189 | the loop computes the thresholded series pointwise |
| `HgdManipulations.ThresholdProperties` | WpfHandGazeDistance/WpfHandGazeDistance/Helpers/HgdManipulations.cs:172-189 | a value becomes NaN iff it is NaN or above the threshold, kept values are unchanged and at most the threshold, and thresholding is idempotent |
| `HgdManipulations.ConvertToBinary` | WpfHandGazeDistance/WpfHandGazeDistance/Helpers/HgdManipulations.cs:196-206 | the loop computes the binary series pointwise |
| `HgdManipulations.BinaryProperties` | WpfHandGazeDistance/WpfHandGazeDistance/Helpers/HgdManipulations.cs:196-206 | NaN stays NaN, every number becomes 1, the length is kept, and the conversion is idempotent |
| `HgdManipulations.BinaryExample` | WpfHandGazeDistance/WpfHandGazeDistance/Helpers/HgdManipulations.cs:196-206 | 2.5, NaN, 0 become 1, NaN, 1 |
| `HgdManipulations.Lead` | WpfHandGazeDistance/WpfHandGazeDistance/Helpers/HgdManipulations.cs:238-242 | when the output is longer than the buffer, its last `bufferLength` values are replaced by the run's average; otherwise it is unchanged |
| `HgdManipulations.Finish` | WpfHandGazeDistance/WpfHandGazeDistance/Helpers/HgdManipulations.cs:253-261 | the last branch pads the output with the run's average up to the input's length, keeping what was emitted |
| `HgdManipulations.RunBody` | WpfHandGazeDistance/WpfHandGazeDistance/Helpers/HgdManipulations.cs:232-245 | the output after the lead buffer and the run ends where the run ends |
| `HgdManipulations.Buffer` | WpfHandGazeDistance/WpfHandGazeDistance/Helpers/HgdManipulations.cs:220-266 | the loop, with its jumps past each run, window and buffer and its final break, computes the buffer scan |
| `HgdManipulations.BufferAction` | WpfHandGazeDistance/WpfHandGazeDistance/Helpers/HgdManipulations.cs:232-262 | one run's handling either finishes the scan or leaves a prefix from which the rest of the scan gives the same result |
| `HgdManipulations.BufferScanAtRun` | WpfHandGazeDistance/WpfHandGazeDistance/Helpers/HgdManipulations.cs:238-262 | at a run, the scan continues after the window and buffer when the input is long enough, and otherwise pads to the end |
| `HgdManipulations.BufferScanWidens` | WpfHandGazeDistance/WpfHandGazeDistance/Helpers/HgdManipulations.cs:220-266 | the scan has the input's length and keeps the widening invariant |
| `HgdManipulations.BufferProperties` | WpfHandGazeDistance/WpfHandGazeDistance/Helpers/HgdManipulations.cs:220-266 | buffering keeps the length and every number; a number in the output lies at most window plus buffer after, or buffer before, a number of the input; ones stay ones |
| `HgdManipulations.BufferKeepsOne` | WpfHandGazeDistance/WpfHandGazeDistance/Helpers/HgdManipulations.cs:220-266 | in a series of ones and NaNs, every one is still a one after buffering |
| `HgdManipulations.BufferRunsOnlyWiden` | WpfHandGazeDistance/WpfHandGazeDistance/Helpers/HgdManipulations.cs:220-266 | the run around a number after buffering contains the run around it before |
| `HgdManipulations.RunAverageOfOnes` | WpfHandGazeDistance/WpfHandGazeDistance/Helpers/HgdManipulations.cs:233-234 | the average a run pads with is a number, and it is one when every number of the series is one |
| `Series.SortSamples` | WpfHandGazeDistance/WpfHandGazeDistance/Helpers/HgdManipulations.cs:81 | the sorted window is ascending with NaN first and is a permutation of the window |
| `Series.Insert` | WpfHandGazeDistance/WpfHandGazeDistance/Helpers/HgdManipulations.cs:81 | inserting into a sorted sequence keeps it sorted and adds exactly the new value |
| `Series.SortedUnique` | WpfHandGazeDistance/WpfHandGazeDistance/Helpers/HgdManipulations.cs:81 | two sorted sequences with the same multiset are equal |
| `Series.SortDependsOnMultiset` | WpfHandGazeDistance/WpfHandGazeDistance/Helpers/HgdManipulations.cs:81 | windows with the same multiset sort to the same sequence |
| `Series.SortingYields` | WpfHandGazeDistance/WpfHandGazeDistance/Helpers/HgdManipulations.cs:81 | sorting a permutation of a sorted sequence gives that sequence |
| `Series.SortedNaNPrefix` | WpfHandGazeDistance/WpfHandGazeDistance/Helpers/HgdManipulations.cs:81 | in a sorted window, position `j` holds NaN iff `j` is below the number of NaNs |
| `Series.SortedHeadIsLeast` | WpfHandGazeDistance/WpfHandGazeDistance/Helpers/HgdManipulations.cs:81 | the head of a sorted sequence is below each of its elements |
| `Series.SampleLeTotal` | WpfHandGazeDistance/WpfHandGazeDistance/Helpers/HgdManipulations.cs:81 | the sort order is total and antisymmetric |
| `Series.MeanOfOnes` | WpfHandGazeDistance/WpfHandGazeDistance/Helpers/HgdManipulations.cs:233-234 | the average of a non-empty run of ones is one |
| `Series.TotalOfOnes` | WpfHandGazeDistance/WpfHandGazeDistance/Helpers/HgdManipulations.cs:233 | the sum of ones is the count |
| `Series.RunLength` | WpfHandGazeDistance/WpfHandGazeDistance/Helpers/HgdManipulations.cs:291-303 | the run starting at `k` fits, holds only numbers, and ends at a NaN or the end |
| `Series.RunStart` | WpfHandGazeDistance/WpfHandGazeDistance/Helpers/HgdManipulations.cs:107-127 | the run holding a number starts after a NaN or at 0 and holds only numbers up to the position |
| `Series.RunLengthReaches` | WpfHandGazeDistance/WpfHandGazeDistance/Helpers/HgdManipulations.cs:291-303 | a stretch of numbers lies inside the run from its start, which ends exactly at a following NaN |
| `Series.RunStartReaches` | WpfHandGazeDistance/WpfHandGazeDistance/Helpers/HgdManipulations.cs:107-127 | the run around a position starts no later than any stretch of numbers reaching it, and exactly there when a NaN precedes it |
| `Series.RunFromStartIsMaximal` | WpfHandGazeDistance/WpfHandGazeDistance/Helpers/HgdManipulations.cs:291-303 | the run from a start after a NaN is maximal and covers every number reachable from it |
| `Series.RunOfMaximal` | WpfHandGazeDistance/WpfHandGazeDistance/Helpers/HgdManipulations.cs:115-127 | every position of a maximal run sees that run's start and length |
| `Series.RunAroundIsMaximal` | WpfHandGazeDistance/WpfHandGazeDistance/Helpers/HgdManipulations.cs:115-127 | the run around a number is a maximal run holding it |
| `Series.RunsOnlyWiden` | WpfHandGazeDistance/WpfHandGazeDistance/Helpers/HgdManipulations.cs:220-266 | when every number stays a number, each run lies inside the new run around the same position |
| `Models.StandardParameters.GetParameters` | WpfHandGazeDistance/WpfHandGazeDistance/Models/StandardParameters.cs:33-49 | a new four-entry list whose entries are the table's own shared objects, in order |
| `Models.StandardParameters.constructor` | WpfHandGazeDistance/WpfHandGazeDistance/Models/StandardParameters.cs:11-31 | the eleven defaults with the source's names, values and bounds, the first four being different objects |
| `Models.DefaultsWithinBounds` | WpfHandGazeDistance/WpfHandGazeDistance/Models/StandardParameters.cs:11-31 | every default lies within its bounds and the hue thresholds ascend |
| `Models.Parameter.constructor` | WpfHandGazeDistance/WpfHandGazeDistance/Models/Parameter.cs:21-27 | the four fields hold the arguments |
| `Models.Trunc` | WpfHandGazeDistance/WpfHandGazeDistance/ViewModels/HgdViewModel.cs:132-136 | the `(int)` conversion truncates toward zero and keeps whole numbers exactly |
| `Models.TruncOfInt` | WpfHandGazeDistance/WpfHandGazeDistance/ViewModels/ParametersViewModel.cs:105-106 | converting a whole number gives that number |
| `Models.FreshDefaults` | WpfHandGazeDistance/WpfHandGazeDistance/Models/StandardParameters.cs:11-17 | four new, distinct objects holding the four returned defaults |
| `ParametersViewModels.Clamp` | WpfHandGazeDistance/WpfHandGazeDistance/ViewModels/ParametersViewModel.cs:66-67 | the result lies within ordered bounds and is the value when already within them; with inverted bounds the maximum wins, as the second test runs last |
| `ParametersViewModels.ClampIdempotent` | WpfHandGazeDistance/WpfHandGazeDistance/ViewModels/ParametersViewModel.cs:66-67 | clamping twice equals clamping once |
| `ParametersViewModels.ParametersViewModel.constructor` | WpfHandGazeDistance/WpfHandGazeDistance/ViewModels/ParametersViewModel.cs:206-209 | the editor holds the table's own four objects, each re-clamped to its bounds |
| `ParametersViewModels.ParametersViewModel.LongActionDuration` | WpfHandGazeDistance/WpfHandGazeDistance/ViewModels/ParametersViewModel.cs:61-63 | the getter returns list entry 0's value, which is the long action duration object's value while the list is the four fields |
| `ParametersViewModels.ParametersViewModel.StdDevWindowDuration` | WpfHandGazeDistance/WpfHandGazeDistance/ViewModels/ParametersViewModel.cs:74-76 | the getter returns list entry 1's value, which is the deviation window object's value while the list is the four fields |
| `ParametersViewModels.ParametersViewModel.BufferDuration` | WpfHandGazeDistance/WpfHandGazeDistance/ViewModels/ParametersViewModel.cs:87-89 | the getter returns list entry 2's value, which is the buffer duration object's value while the list is the four fields |
| `ParametersViewModels.ParametersViewModel.MedianWindowLength` | WpfHandGazeDistance/WpfHandGazeDistance/ViewModels/ParametersViewModel.cs:100-102 | the getter returns list entry 3's value converted to `int`: truncated toward zero, exact for a whole number, and the median window object's value while the list is the four fields |
| `ParametersViewModels.ParametersViewModel.SetLongActionDuration` | WpfHandGazeDistance/WpfHandGazeDistance/ViewModels/ParametersViewModel.cs:61-72 | writes the value clamped to entry 0's bounds through the shared object and rebuilds the list from the fields |
| `ParametersViewModels.ParametersViewModel.SetStdDevWindowDuration` | WpfHandGazeDistance/WpfHandGazeDistance/ViewModels/ParametersViewModel.cs:74-85 | the same for entry 1 |
| `ParametersViewModels.ParametersViewModel.SetBufferDuration` | WpfHandGazeDistance/WpfHandGazeDistance/ViewModels/ParametersViewModel.cs:87-98 | the same for entry 2 |
| `ParametersViewModels.ParametersViewModel.SetMedianWindowLength` | WpfHandGazeDistance/WpfHandGazeDistance/ViewModels/ParametersViewModel.cs:100-111 | the same for entry 3, with the bounds converted to whole numbers |
| `ParametersViewModels.ParametersViewModel.UpdateParameterList` | WpfHandGazeDistance/WpfHandGazeDistance/ViewModels/ParametersViewModel.cs:281-297 | the list becomes the four fields, in order |
| `ParametersViewModels.ParametersViewModel.UpdateProperties` | WpfHandGazeDistance/WpfHandGazeDistance/ViewModels/ParametersViewModel.cs:299-317 | the fields take the list's first four objects and each is re-clamped through its setter |
| `ParametersViewModels.ParametersViewModel.LoadDefaultParameters` | WpfHandGazeDistance/WpfHandGazeDistance/ViewModels/ParametersViewModel.cs:275-279 | the editor takes the table's shared objects and re-clamps them |
| `ParametersViewModels.ParametersViewModel.ResetParameters` | WpfHandGazeDistance/WpfHandGazeDistance/ViewModels/ParametersViewModel.cs:215 | corrected reset: the editor holds new objects with exactly the default values |
| `ParametersViewModels.ParametersViewModel.SaveParameters` | WpfHandGazeDistance/WpfHandGazeDistance/ViewModels/ParametersViewModel.cs:243-273 | the file's lines are the header followed by one row per list entry, in order |
| `ParametersViewModels.ResetKeepsEdits` | WpfHandGazeDistance/WpfHandGazeDistance/ViewModels/ParametersViewModel.cs:215 | as written, an edit to 5 seconds survives the reset command |
| `ParametersViewModels.ResetRestoresDefaults` | WpfHandGazeDistance/WpfHandGazeDistance/ViewModels/ParametersViewModel.cs:215 | with the corrected reset, the same edit is undone and the default of 2 seconds returns |
| `ParametersViewModels.HeaderLine` | WpfHandGazeDistance/WpfHandGazeDistance/ViewModels/ParametersViewModel.cs:251-258 | the header loop computes the left fold of its steps |
| `ParametersViewModels.HeaderOfJoins` | WpfHandGazeDistance/WpfHandGazeDistance/ViewModels/ParametersViewModel.cs:251-258 | for non-empty headers the header line is the headers joined by a comma and a space |
| `ParametersViewModels.JoinSnoc` | WpfHandGazeDistance/WpfHandGazeDistance/ViewModels/ParametersViewModel.cs:251-258 | joining one more part appends the separator and the part |
| `ParametersViewModels.SavedHeader` | WpfHandGazeDistance/WpfHandGazeDistance/ViewModels/ParametersViewModel.cs:45-51 | the saved header is `Parameter Name, Value, Minimum, Maximum` |
| `ParametersViewModels.Split` | WpfHandGazeDistance/WpfHandGazeDistance/ViewModels/ParametersViewModel.cs:231 | the split gives at least one part, no part holds the delimiter, and joining the parts by the delimiter gives back the line |
| `ParametersViewModels.SplitPiece` | WpfHandGazeDistance/WpfHandGazeDistance/ViewModels/ParametersViewModel.cs:231 | a text without the delimiter splits into itself |
| `ParametersViewModels.SplitAfterPiece` | WpfHandGazeDistance/WpfHandGazeDistance/ViewModels/ParametersViewModel.cs:231 | splitting a piece, a delimiter and a rest gives the piece followed by the rest's split |
| `ParametersViewModels.ParseRow` | WpfHandGazeDistance/WpfHandGazeDistance/ViewModels/ParametersViewModel.cs:230-233 | a line gives a row iff it has at least four fields |
| `ParametersViewModels.RowRoundTrip` | WpfHandGazeDistance/WpfHandGazeDistance/ViewModels/ParametersViewModel.cs:262-269 | a saved row whose texts hold no delimiter loads back as the same four texts |
| `ParametersViewModels.ReadRows` | WpfHandGazeDistance/WpfHandGazeDistance/ViewModels/ParametersViewModel.cs:225-237 | skipping the header, the load succeeds iff every later line has four fields, and then yields one row per line — that line's parse |
| `HgdViewModels.HgdData.constructor` | WpfHandGazeDistance/WpfHandGazeDistance/Models/HgdData.cs:21-25 | a new record has an empty time axis and empty series |
| `HgdViewModels.DeriveSettings` | WpfHandGazeDistance/WpfHandGazeDistance/ViewModels/HgdViewModel.cs:132-136 | settings exist iff the list has five values; the three durations become whole frames at 60 fps truncated toward zero; whole-number median period and threshold are taken exactly |
| `HgdViewModels.DefaultSettings` | WpfHandGazeDistance/WpfHandGazeDistance/ViewModels/HgdViewModel.cs:132-136 | the default durations give 120, 120 and 30 frames and a median period of 10 |
| `HgdViewModels.ValuesOf` | WpfHandGazeDistance/WpfHandGazeDistance/ViewModels/HgdViewModel.cs:132-136 | the values read are the list's values, in order |
| `HgdViewModels.HgdViewModel.constructor` | WpfHandGazeDistance/WpfHandGazeDistance/ViewModels/HgdViewModel.cs:127-136 | the record starts empty and the settings are those derived from the first five values |
| `HgdViewModels.EditorListIsTooShort` | WpfHandGazeDistance/WpfHandGazeDistance/ViewModels/HgdViewModel.cs:132-136 | the editor's default list has four entries, so no settings can be derived from it |
| `HgdViewModels.PipelineLengths` | WpfHandGazeDistance/WpfHandGazeDistance/ViewModels/HgdViewModel.cs:206-213 | the first three stages have the input's length; the later ones have it too when the input is at least one deviation window long, and one window's length otherwise |
| `HgdViewModels.IssueHasQuietWindow` | WpfHandGazeDistance/WpfHandGazeDistance/ViewModels/HgdViewModel.cs:209-211 | an issue flagged at `i` has a gap-free deviation window from `i` that fits the series and deviates by at most the threshold, and is flagged with a one |
| `HgdViewModels.QuietIssueIsLongAction` | WpfHandGazeDistance/WpfHandGazeDistance/ViewModels/HgdViewModel.cs:208-211 | such an issue lies inside a long action: the low pass kept the median value there |
| `HgdViewModels.IssueInsideLongAction` | WpfHandGazeDistance/WpfHandGazeDistance/ViewModels/HgdViewModel.cs:206-211 | the same, stated on the stages of the composed pipeline |
| `HgdViewModels.IssueSurvivesBuffer` | WpfHandGazeDistance/WpfHandGazeDistance/ViewModels/HgdViewModel.cs:211-213 | a flagged issue is still flagged with a one after buffering |
| `HgdViewModels.IssuesLieInLongActions` | WpfHandGazeDistance/WpfHandGazeDistance/ViewModels/HgdViewModel.cs:203-213 | every usability issue lies in a long action with a quiet, gap-free deviation window, and both the issue and its buffered form are ones |
| `HgdViewModels.RunPipeline` | WpfHandGazeDistance/WpfHandGazeDistance/ViewModels/HgdViewModel.cs:206-213 | the stage calls, each fed the previous output, compute the composed pipeline |
| `HgdViewModels.HgdViewModel.AnalyseData` | WpfHandGazeDistance/WpfHandGazeDistance/ViewModels/HgdViewModel.cs:196-222 | a new record; when the measurement has one value per frame the time axis is the video's and every stage is the pipeline's, otherwise only the raw measurement is kept; the frame rate and the settings are required to be usable only on the pipeline path |
| `HgdViewModels.HgdViewModel.LoadHgd` | WpfHandGazeDistance/WpfHandGazeDistance/ViewModels/HgdViewModel.cs:175-183 | a new record; without a path it is empty, with one its time axis is rebuilt at 60 fps with the loaded axis's length |
| `HgdViewModels.LastIndexOf` | WpfHandGazeDistance/WpfHandGazeDistance/ViewModels/HgdViewModel.cs:291-293 | the index of the last occurrence, or -1 when there is none |
| `HgdViewModels.ShortenPath` | WpfHandGazeDistance/WpfHandGazeDistance/ViewModels/HgdViewModel.cs:289-296 | the short path starts with `...\` and holds a backslash |
| `HgdViewModels.ShortenPathSplits` | WpfHandGazeDistance/WpfHandGazeDistance/ViewModels/HgdViewModel.cs:289-296 | a path `d\f` whose file name has no backslash shortens to `...\`, the last folder name of `d`, `\` and `f` |
| `HgdViewModels.TailIsAfterLast` | WpfHandGazeDistance/WpfHandGazeDistance/ViewModels/HgdViewModel.cs:293 | the last folder name is what follows the last backslash |
| `HgdViewModels.AfterLastHasNone` | WpfHandGazeDistance/WpfHandGazeDistance/ViewModels/HgdViewModel.cs:291 | what follows the last backslash holds none |
| `HgdViewModels.TailAfterSeparator` | WpfHandGazeDistance/WpfHandGazeDistance/ViewModels/HgdViewModel.cs:293 | the last folder name of `a\b` is `b` when `b` has no backslash |
| `HgdViewModels.LastIndexOfSeparator` | WpfHandGazeDistance/WpfHandGazeDistance/ViewModels/HgdViewModel.cs:291-292 | the last separator of `d\f` is at `|d|` when `f` has none |
| `HgdViewModels.ShortenedParts` | WpfHandGazeDistance/WpfHandGazeDistance/ViewModels/HgdViewModel.cs:289-296 | a short path is `...\` + a folder name + `\` + a file name, neither holding a backslash |
| `HgdViewModels.ShortenPathIdempotent` | WpfHandGazeDistance/WpfHandGazeDistance/ViewModels/HgdViewModel.cs:289-296 | shortening a short path changes nothing |

## Left out

- Floating point: samples are real numbers, so single-precision rounding, infinities and signed zero are not modelled. `Divide` excludes a non-zero value divided by zero (an infinity), which no caller produces.
- `HgdManipulations.RecordingTimeFromConstant` and `HgdManipulations.RecordingTimeFromVideo`: require a non-zero frame rate, because infinities are not modelled: at fps 0 the source's step `1000 / fps` is +Infinity, giving an axis of NaN (0 times infinity) followed by +Infinity.
- `Math.Sqrt` and `Math.Pow` are not models: the square root is the parameter `sqrt`, and `Pow(x, 2)` is `x * x`.
- The hand detector (`HandDetector.MeasureRawHgd`), the video and the eye-tracking data are not part of this model. `AnalyseData` takes the measured series and the video's frame rate and frame count as parameters.
- `HgdData.LoadData` and the record's file format are not part of this model. `LoadHgd` takes the time axis the file would hold as a parameter, and a missing path is `None`.
- File dialogs, `StreamReader`, `File.WriteAllText`, `SaveHgd`, `VideoEditor.CutSnippets`, the background worker, progress reporting, commands and message boxes are I/O or UI and are left out. `SaveParameters` returns the lines it would write, with the float-to-text formatting as a parameter `format`.
- `SetFolderPath`, `LoadVideo`, `LoadBeGaze`, `RemoveHgdViewModel` and `Stop` are UI wiring around `ShortenPath` and are left out.
- `ChangeAndNotify` and property-change notification are left out. The setters write the value only.
- `ParameterCollection` is never filled in the code shown and is left out.
- The shown `HgdData.cs` declares only `RawData` and a time axis. The seven pipeline series that `HgdViewModel.cs` writes are modelled as fields of `HgdData`.
- `Parameter.Value`, `Minimum` and `Maximum` are `object` in the source. They are modelled as reals. The source's unboxing casts and `Value * Fps` on an `object` (which would not compile as written) are modelled as arithmetic on reals followed by a truncating `(int)`.
- `ParametersViewModels.ReadRows`: `LoadParameters` builds parameters whose fields are the split strings, and the `(float)` unboxing in `UpdateProperties` would then throw. So only the header skip and the row split are modelled, and each row keeps its four fields as text. A line with fewer than four fields is a `Failure` where the source throws.
- `ParametersViewModels.ParametersViewModel.UpdateProperties`: requires the first four entries to be different objects, which every list the program builds satisfies. Two equal entries would make one setter overwrite another, and that aliasing is not modelled.
- `HgdManipulations.MovingMedian`: requires `period >= 1`, also for an empty input, where the source returns an empty list for any period. A period of 0 or below would index out of range for a non-empty input.
- `HgdManipulations.MovingStdDev`: requires a non-negative period. With a negative period the loop bound `Count - period` lets `i` reach `Count`, so for a non-empty input the source throws at the indexer `inputValues[i]` before `Enumerable.Range` is reached.
- `HgdManipulations.Buffer`: requires non-negative lengths. With a negative length the source throws at `Enumerable.Repeat` once the scan reaches a number. An input without numbers (empty, or all NaN) comes back unchanged in the source, and the requires excludes that case too. Every caller passes lengths truncated from clamped, non-negative durations.
- `HgdViewModels.ShortenPath`: requires a backslash in the path. Without one, `Remove(-1)` throws.
- `HgdViewModels.HgdViewModel.constructor`: requires five entries, because it reads entry 4. The editor's list has four (`HgdViewModels.EditorListIsTooShort`), so the source's call from the main window would throw.
- `HgdManipulations.BufferAction` and `HgdViewModels.RunPipeline` are extracted from the bodies of `Buffer` and `AnalyseData`. They are not separate operations in the source.
- The detector settings (pixel threshold, hue thresholds, erosion) appear only in the default table. Their setters are commented out in the source.

## Findings

| source | as written | input that shows it | evidently intended | confidence | as-written member | corrected member |
|---|---|---|---|---|---|---|
| WpfHandGazeDistance/WpfHandGazeDistance/ViewModels/ParametersViewModel.cs:215 | the reset command reloads `StandardParameters.GetParameters()`, whose entries are the shared objects the setters wrote through | set the long action duration to 5, then reset: it stays 5 | reset restores the default of 2 seconds | not executed | `ParametersViewModels.ResetKeepsEdits` | `ParametersViewModels.ResetRestoresDefaults` |
