/**
 * The parameter editor: four bounded settings held as shared `Parameter`
 * objects, their setters (which clamp into the bounds and write through the
 * object), reset to the defaults, and the comma separated file format used
 * to save and load them.
 */
module ParametersViewModels {
  import opened Models

  datatype Result<T> = Success(value: T) | Failure(error: string)

  const CsvDelimiter: char := ','
  const HeaderList: seq<string> := ["Parameter Name", "Value", "Minimum", "Maximum"]

  /**
   * A setter's bound check: a value below the minimum becomes the minimum,
   * then a value above the maximum becomes the maximum.
   */
  function Clamp(value: real, minimum: real, maximum: real): (r: real)
    ensures minimum <= maximum ==> minimum <= r <= maximum
    ensures minimum <= value <= maximum ==> r == value
    ensures value < minimum <= maximum ==> r == minimum
    ensures maximum < value ==> r == maximum
    ensures maximum < minimum ==> r == maximum
  {
    var raised := if value < minimum then minimum else value;
    if raised > maximum then maximum else raised
  }

  /** Clamping a clamped value again changes nothing, whatever the bounds. */
  lemma {:induction false} ClampIdempotent(value: real, minimum: real, maximum: real)
    ensures Clamp(Clamp(value, minimum, maximum), minimum, maximum) == Clamp(value, minimum, maximum)
  {
  }

  /** The value a parameter holds after its setter has been given its own value again. */
  twostate predicate Reclamped(p: Parameter)
    reads p
  {
    p.value == Clamp(old(p.value), p.minimum, p.maximum)
  }

  /** The same, for the integer setter, which converts the value and the bounds to `int` first. */
  twostate predicate ReclampedInt(p: Parameter)
    reads p
  {
    p.value == Clamp(Trunc(old(p.value)) as real, Trunc(p.minimum) as real, Trunc(p.maximum) as real)
  }

  class ParametersViewModel {
    var longActionDuration: Parameter
    var stdDevWindowDuration: Parameter
    var bufferDuration: Parameter
    var medianWindowLength: Parameter
    var parameterList: seq<Parameter>

    /** The list is the four fields in order, as `UpdateParameterList` leaves it. */
    predicate Valid()
      reads this
    {
      parameterList == [longActionDuration, stdDevWindowDuration, bufferDuration, medianWindowLength]
    }

    /** The four fields are four different objects. */
    predicate Distinct()
      reads this
    {
      && longActionDuration != stdDevWindowDuration && longActionDuration != bufferDuration
      && longActionDuration != medianWindowLength && stdDevWindowDuration != bufferDuration
      && stdDevWindowDuration != medianWindowLength && bufferDuration != medianWindowLength
    }

    /** The view model starts from the defaults, sharing the default table's objects. */
    constructor (defaults: StandardParameters)
      requires defaults.Distinct()
      modifies defaults.longActionDuration, defaults.stdDevWindowDuration
      modifies defaults.bufferDuration, defaults.medianWindowLength
      ensures Valid() && Distinct()
      ensures longActionDuration == defaults.longActionDuration
      ensures stdDevWindowDuration == defaults.stdDevWindowDuration
      ensures bufferDuration == defaults.bufferDuration
      ensures medianWindowLength == defaults.medianWindowLength
      ensures Reclamped(longActionDuration) && Reclamped(stdDevWindowDuration)
      ensures Reclamped(bufferDuration) && ReclampedInt(medianWindowLength)
    {
      // The C# fields start out null; LoadDefaultParameters assigns all of them.
      longActionDuration := defaults.longActionDuration;
      stdDevWindowDuration := defaults.stdDevWindowDuration;
      bufferDuration := defaults.bufferDuration;
      medianWindowLength := defaults.medianWindowLength;
      parameterList := [];
      new;
      LoadDefaultParameters(defaults);
    }

    /** The getter reads the list; while the list is the fields, that is the field's object. */
    function LongActionDuration(): (r: real)
      requires |parameterList| >= 1
      reads this, parameterList
      ensures Valid() ==> r == longActionDuration.value
    {
      parameterList[0].value
    }

    /** The getter reads the list; while the list is the fields, that is the field's object. */
    function StdDevWindowDuration(): (r: real)
      requires |parameterList| >= 2
      reads this, parameterList
      ensures Valid() ==> r == stdDevWindowDuration.value
    {
      parameterList[1].value
    }

    /** The getter reads the list; while the list is the fields, that is the field's object. */
    function BufferDuration(): (r: real)
      requires |parameterList| >= 3
      reads this, parameterList
      ensures Valid() ==> r == bufferDuration.value
    {
      parameterList[2].value
    }

    /** The integer setting, read back with the `int` conversion, which truncates toward zero. */
    function MedianWindowLength(): (r: int)
      requires |parameterList| >= 4
      reads this, parameterList
      ensures Valid() ==> r == Trunc(medianWindowLength.value)
      ensures 0.0 <= parameterList[3].value ==> 0 <= r && r as real <= parameterList[3].value < r as real + 1.0
      ensures parameterList[3].value == parameterList[3].value.Floor as real ==> r as real == parameterList[3].value
    {
      Trunc(parameterList[3].value)
    }

    /** Clamps with the bounds of the first list entry and writes the field's object. */
    method SetLongActionDuration(value: real)
      requires |parameterList| >= 1
      modifies this`parameterList, longActionDuration
      ensures Valid()
      ensures longActionDuration.value == Clamp(value, old(parameterList)[0].minimum, old(parameterList)[0].maximum)
    {
      var v := value;
      if v < parameterList[0].minimum { v := parameterList[0].minimum; }
      if v > parameterList[0].maximum { v := parameterList[0].maximum; }
      longActionDuration.value := v;
      UpdateParameterList();
    }

    method SetStdDevWindowDuration(value: real)
      requires |parameterList| >= 2
      modifies this`parameterList, stdDevWindowDuration
      ensures Valid()
      ensures stdDevWindowDuration.value == Clamp(value, old(parameterList)[1].minimum, old(parameterList)[1].maximum)
    {
      var v := value;
      if v < parameterList[1].minimum { v := parameterList[1].minimum; }
      if v > parameterList[1].maximum { v := parameterList[1].maximum; }
      stdDevWindowDuration.value := v;
      UpdateParameterList();
    }

    method SetBufferDuration(value: real)
      requires |parameterList| >= 3
      modifies this`parameterList, bufferDuration
      ensures Valid()
      ensures bufferDuration.value == Clamp(value, old(parameterList)[2].minimum, old(parameterList)[2].maximum)
    {
      var v := value;
      if v < parameterList[2].minimum { v := parameterList[2].minimum; }
      if v > parameterList[2].maximum { v := parameterList[2].maximum; }
      bufferDuration.value := v;
      UpdateParameterList();
    }

    /** The integer setter: the bounds are converted to `int` before the comparison. */
    method SetMedianWindowLength(value: int)
      requires |parameterList| >= 4
      modifies this`parameterList, medianWindowLength
      ensures Valid()
      ensures medianWindowLength.value == Clamp(value as real, Trunc(old(parameterList)[3].minimum) as real,
                                                Trunc(old(parameterList)[3].maximum) as real)
    {
      var v := value;
      if v < Trunc(parameterList[3].minimum) { v := Trunc(parameterList[3].minimum); }
      if v > Trunc(parameterList[3].maximum) { v := Trunc(parameterList[3].maximum); }
      medianWindowLength.value := v as real;
      UpdateParameterList();
    }

    /** Replaces the list by a new one holding the four fields. */
    method UpdateParameterList()
      modifies this`parameterList
      ensures Valid()
    {
      parameterList := [longActionDuration, stdDevWindowDuration, bufferDuration, medianWindowLength];
    }

    /**
     * Takes the four leading entries of the list as the fields and passes each
     * one's value through its setter again.
     */
    method UpdateProperties()
      requires |parameterList| >= 4
      requires forall j, k | 0 <= j < k < 4 :: parameterList[j] != parameterList[k]
      modifies this, parameterList[0], parameterList[1], parameterList[2], parameterList[3]
      ensures Valid() && Distinct()
      ensures longActionDuration == old(parameterList[0]) && stdDevWindowDuration == old(parameterList[1])
      ensures bufferDuration == old(parameterList[2]) && medianWindowLength == old(parameterList[3])
      ensures Reclamped(longActionDuration) && Reclamped(stdDevWindowDuration)
      ensures Reclamped(bufferDuration) && ReclampedInt(medianWindowLength)
    {
      longActionDuration := parameterList[0];
      stdDevWindowDuration := parameterList[1];
      bufferDuration := parameterList[2];
      medianWindowLength := parameterList[3];
      SetLongActionDuration(parameterList[0].value);
      SetStdDevWindowDuration(parameterList[1].value);
      SetBufferDuration(parameterList[2].value);
      SetMedianWindowLength(Trunc(parameterList[3].value));
    }

    /**
     * Loads the list `GetParameters` returns. The fields become the default
     * table's own objects, so later edits are written into that table.
     */
    method LoadDefaultParameters(defaults: StandardParameters)
      requires defaults.Distinct()
      modifies this, defaults.longActionDuration, defaults.stdDevWindowDuration
      modifies defaults.bufferDuration, defaults.medianWindowLength
      ensures Valid() && Distinct()
      ensures longActionDuration == defaults.longActionDuration
      ensures stdDevWindowDuration == defaults.stdDevWindowDuration
      ensures bufferDuration == defaults.bufferDuration
      ensures medianWindowLength == defaults.medianWindowLength
      ensures Reclamped(longActionDuration) && Reclamped(stdDevWindowDuration)
      ensures Reclamped(bufferDuration) && ReclampedInt(medianWindowLength)
    {
      parameterList := defaults.GetParameters();
      UpdateProperties();
    }

    /**
     * What the reset command evidently intends: the four settings hold the
     * default values again, in objects nothing else refers to.
     */
    method ResetParameters()
      modifies this
      ensures Valid() && Distinct()
      ensures fresh(longActionDuration) && fresh(stdDevWindowDuration)
      ensures fresh(bufferDuration) && fresh(medianWindowLength)
      ensures longActionDuration.Holds(LongActionDurationDefault)
      ensures stdDevWindowDuration.Holds(StdDevWindowDurationDefault)
      ensures bufferDuration.Holds(BufferDurationDefault)
      ensures medianWindowLength.Holds(MedianWindowLengthDefault)
    {
      parameterList := FreshDefaults();
      UpdateProperties();
    }

    /** The saved file, line by line: the header, then one row per list entry. */
    method SaveParameters(format: real -> string) returns (lines: seq<string>)
      ensures |lines| == |parameterList| + 1
      ensures lines[0] == HeaderOf(HeaderList)
      ensures forall k | 0 <= k < |parameterList| ::
        lines[k + 1] == RowLine(parameterList[k].name, format(parameterList[k].value),
                                format(parameterList[k].minimum), format(parameterList[k].maximum))
    {
      var headerLine := HeaderLine(HeaderList);
      lines := [headerLine];
      var i := 0;
      while i < |parameterList|
        invariant 0 <= i <= |parameterList|
        invariant |lines| == i + 1 && lines[0] == headerLine
        invariant forall k | 0 <= k < i ::
          lines[k + 1] == RowLine(parameterList[k].name, format(parameterList[k].value),
                                  format(parameterList[k].minimum), format(parameterList[k].maximum))
      {
        var parameter := parameterList[i];
        var line := parameter.name;
        line := line + [CsvDelimiter] + format(parameter.value) + [CsvDelimiter] + format(parameter.minimum)
                + [CsvDelimiter] + format(parameter.maximum);
        lines := lines + [line];
        i := i + 1;
      }
    }
  }

  /** Reset as written: an edit made before the reset survives it. */
  method ResetKeepsEdits() returns (afterReset: real)
    ensures afterReset == 5.0
  {
    var defaults := new StandardParameters();
    var viewModel := new ParametersViewModel(defaults);
    viewModel.SetLongActionDuration(5.0);
    viewModel.LoadDefaultParameters(defaults);
    afterReset := viewModel.LongActionDuration();
  }

  /** Reset with fresh objects: the same edit is undone. */
  method ResetRestoresDefaults() returns (afterReset: real)
    ensures afterReset == LongActionDurationDefault.value
  {
    var defaults := new StandardParameters();
    var viewModel := new ParametersViewModel(defaults);
    viewModel.SetLongActionDuration(5.0);
    viewModel.ResetParameters();
    afterReset := viewModel.LongActionDuration();
  }

  /** One step of the header loop: the first header stands alone, later ones follow a delimiter and a space. */
  function HeaderStep(headerLine: string, header: string): string
  {
    if headerLine == "" then header else headerLine + [CsvDelimiter] + " " + header
  }

  /** The header line the loop over `headers` builds. */
  function HeaderOf(headers: seq<string>): string
  {
    if |headers| == 0 then "" else HeaderStep(HeaderOf(headers[..|headers| - 1]), headers[|headers| - 1])
  }

  method HeaderLine(headers: seq<string>) returns (headerLine: string)
    ensures headerLine == HeaderOf(headers)
  {
    headerLine := "";
    var i := 0;
    while i < |headers|
      invariant 0 <= i <= |headers|
      invariant headerLine == HeaderOf(headers[..i])
    {
      assert headers[..i + 1][..i] == headers[..i];
      if headerLine == "" {
        headerLine := headers[i];
      } else {
        headerLine := headerLine + [CsvDelimiter] + " " + headers[i];
      }
      i := i + 1;
    }
    assert headers[..i] == headers;
  }

  /** `parts` with `separator` between neighbours. */
  function Join(parts: seq<string>, separator: string): string
  {
    if |parts| == 0 then "" else if |parts| == 1 then parts[0] else parts[0] + separator + Join(parts[1..], separator)
  }

  lemma {:induction false} JoinSnoc(parts: seq<string>, last: string, separator: string)
    requires |parts| >= 1
    ensures Join(parts + [last], separator) == Join(parts, separator) + separator + last
    decreases |parts|
  {
    if |parts| == 1 {
      assert (parts + [last])[1..] == [last];
    } else {
      assert (parts + [last])[1..] == parts[1..] + [last];
      JoinSnoc(parts[1..], last, separator);
    }
  }

  /** With no empty header, the header line is the headers joined by a delimiter and a space. */
  lemma {:induction false} HeaderOfJoins(headers: seq<string>)
    requires forall k | 0 <= k < |headers| :: headers[k] != ""
    ensures HeaderOf(headers) == Join(headers, [CsvDelimiter] + " ")
    ensures |headers| > 0 ==> HeaderOf(headers) != ""
    decreases |headers|
  {
    if |headers| > 1 {
      var init := headers[..|headers| - 1];
      HeaderOfJoins(init);
      JoinSnoc(init, headers[|headers| - 1], [CsvDelimiter] + " ");
      assert init + [headers[|headers| - 1]] == headers;
    }
  }

  /** The header of every saved file. */
  lemma {:induction false} SavedHeader()
    ensures HeaderOf(HeaderList) == "Parameter Name, Value, Minimum, Maximum"
  {
    var separator := [CsvDelimiter] + " ";
    assert HeaderList[..1][..0] == [];
    assert HeaderOf(HeaderList[..1]) == "Parameter Name";
    assert HeaderList[..2][..1] == HeaderList[..1];
    assert HeaderOf(HeaderList[..2]) == "Parameter Name" + separator + "Value";
    assert HeaderList[..3][..2] == HeaderList[..2];
    assert HeaderOf(HeaderList[..3]) == "Parameter Name" + separator + "Value" + separator + "Minimum";
    assert HeaderList[..4][..3] == HeaderList[..3];
    assert HeaderList[..4] == HeaderList;
  }

  /** One saved row: the name and the three formatted numbers, separated by the delimiter. */
  function RowLine(name: string, value: string, minimum: string, maximum: string): string
  {
    name + [CsvDelimiter] + value + [CsvDelimiter] + minimum + [CsvDelimiter] + maximum
  }

  /** `line.Split(delimiter)`: the pieces between delimiters, empty ones included. */
  function Split(line: string, delimiter: char): (parts: seq<string>)
    ensures |parts| >= 1
    ensures forall k | 0 <= k < |parts| :: delimiter !in parts[k]
    ensures Join(parts, [delimiter]) == line
  {
    if |line| == 0 then [""]
    else
      var rest := Split(line[1..], delimiter);
      if line[0] == delimiter then
        assert [""] + rest == [""] + rest[..];
        [""] + rest
      else
        assert line == [line[0]] + line[1..];
        [[line[0]] + rest[0]] + rest[1..]
  }

  lemma {:induction false} SplitPiece(piece: string, delimiter: char)
    requires delimiter !in piece
    ensures Split(piece, delimiter) == [piece]
    decreases |piece|
  {
    if |piece| > 0 {
      SplitPiece(piece[1..], delimiter);
      assert [piece[0]] + piece[1..] == piece;
    }
  }

  lemma {:induction false} SplitAfterPiece(piece: string, delimiter: char, rest: string)
    requires delimiter !in piece
    ensures Split(piece + [delimiter] + rest, delimiter) == [piece] + Split(rest, delimiter)
    decreases |piece|
  {
    if |piece| == 0 {
      assert (piece + [delimiter] + rest)[1..] == rest;
    } else {
      assert (piece + [delimiter] + rest)[1..] == piece[1..] + [delimiter] + rest;
      SplitAfterPiece(piece[1..], delimiter, rest);
      assert [piece[0]] + piece[1..] == piece;
    }
  }

  /** The four text fields of a loaded row. */
  datatype Row = Row(name: string, value: string, minimum: string, maximum: string)

  /** A loaded line: fields past the fourth are ignored, fewer than four is an index error. */
  function ParseRow(line: string): (r: Result<Row>)
    ensures r.Success? <==> |Split(line, CsvDelimiter)| >= 4
  {
    var values := Split(line, CsvDelimiter);
    if |values| < 4 then Failure("a row needs four fields")
    else Success(Row(values[0], values[1], values[2], values[3]))
  }

  /** A saved row whose texts hold no delimiter loads back as the same four texts. */
  lemma {:induction false} RowRoundTrip(name: string, value: string, minimum: string, maximum: string)
    requires CsvDelimiter !in name && CsvDelimiter !in value
    requires CsvDelimiter !in minimum && CsvDelimiter !in maximum
    ensures ParseRow(RowLine(name, value, minimum, maximum)) == Success(Row(name, value, minimum, maximum))
  {
    var d := [CsvDelimiter];
    assert RowLine(name, value, minimum, maximum) == name + d + (value + d + (minimum + d + maximum));
    SplitAfterPiece(name, CsvDelimiter, value + d + (minimum + d + maximum));
    SplitAfterPiece(value, CsvDelimiter, minimum + d + maximum);
    SplitAfterPiece(minimum, CsvDelimiter, maximum);
    SplitPiece(maximum, CsvDelimiter);
  }

  /**
   * The loop of `LoadParameters` over a file's lines: the first line is the
   * header and is skipped; every later line becomes a row, and the first
   * line with fewer than four fields ends the load with an error.
   */
  method ReadRows(lines: seq<string>) returns (r: Result<seq<Row>>)
    ensures r.Success? <==> forall k | 1 <= k < |lines| :: ParseRow(lines[k]).Success?
    ensures r.Success? ==> |r.value| == if |lines| == 0 then 0 else |lines| - 1
    ensures r.Success? ==> forall k | 0 <= k < |r.value| :: r.value[k] == ParseRow(lines[k + 1]).value
  {
    var rows: seq<Row> := [];
    var i := 1;
    while i < |lines|
      invariant 1 <= i <= if |lines| == 0 then 1 else |lines|
      invariant |rows| == i - 1
      invariant forall k | 1 <= k < i :: ParseRow(lines[k]).Success?
      invariant forall k | 0 <= k < |rows| :: rows[k] == ParseRow(lines[k + 1]).value
    {
      var values := Split(lines[i], CsvDelimiter);
      if |values| < 4 {
        return Failure("a row needs four fields");
      }
      rows := rows + [Row(values[0], values[1], values[2], values[3])];
      i := i + 1;
    }
    r := Success(rows);
  }
}
