/** The ingestion pipeline of `src/utils/dataParser.ts`: the CSV row mapper, the
    free-text line parser and the validator.

    Two foreign pieces are parameters. `papa` is the PapaParse library
    (header row on, empty lines skipped, header names lower-cased and trimmed):
    it turns the CSV text into rows, each a map from header name to cell text,
    and a list of error messages. `parse` is `parseFloat`. Both parsers are
    loops that push points, proved equal to specification functions; the
    properties the pipeline promises are lemmas about those functions. */
module DataParser {
  import opened Types
  import opened JsString
  import opened Selection

  /** One CSV row after PapaParse: header name to cell text. */
  type Row = map<string, string>

  /** What `Papa.parse` returns: the rows and the messages of its errors, in order. */
  datatype PapaResult = PapaResult(data: seq<Row>, errors: seq<string>)

  // ---------------------------------------------------------------- CSV

  /** JavaScript truthiness of `row.key`: the cell exists and is not empty. */
  predicate Truthy(row: Row, key: string) {
    key in row && row[key] != ""
  }

  /** The first column of `keys` whose cell is truthy, or `|keys|` if none is. */
  function FirstTruthy(row: Row, keys: seq<string>): (k: nat)
    ensures k <= |keys|
    ensures k < |keys| ==> Truthy(row, keys[k])
    ensures forall j :: 0 <= j < k ==> !Truthy(row, keys[j])
  {
    if keys == [] then 0
    else if Truthy(row, keys[0]) then 0
    else 1 + FirstTruthy(row, keys[1..])
  }

  /** `row[keys[0]] || row[keys[1]] || ... || fallback`. */
  function OrChain(row: Row, keys: seq<string>, fallback: string): (r: string)
    ensures forall k :: 0 <= k < |keys| && Truthy(row, keys[k]) && (forall j :: 0 <= j < k ==> !Truthy(row, keys[j])) ==>
              r == row[keys[k]]
    ensures (forall k :: 0 <= k < |keys| ==> !Truthy(row, keys[k])) ==> r == fallback
    ensures (exists k :: 0 <= k < |keys| && Truthy(row, keys[k])) ==> r != "" && r in row.Values
  {
    var k := FirstTruthy(row, keys);
    if k < |keys| then row[keys[k]] else fallback
  }

  const TimestampColumns: seq<string> := ["timestamp", "date", "time"]
  const ValueColumns: seq<string> := ["value", "price", "amount", "y"]

  /** The timestamp of CSV row `index`. */
  function CsvTimestamp(row: Row, index: nat): string {
    OrChain(row, TimestampColumns, NatToString(index))
  }

  /** The text `parseFloat` is applied to for a CSV row. */
  function CsvValueText(row: Row): string {
    OrChain(row, ValueColumns, "0")
  }

  /** The point CSV row `index` contributes, if its value is a number. */
  function CsvRowPoint(row: Row, index: nat, parse: string -> Num): (p: Option<TimeSeriesData>)
    ensures p.Some? <==> !IsNaN(parse(CsvValueText(row)))
    ensures p.Some? ==> p.value.timestamp == CsvTimestamp(row, index) && !IsNaN(p.value.value)
  {
    var value := parse(CsvValueText(row));
    if IsNaN(value) then None else Some(TimeSeriesData(CsvTimestamp(row, index), value))
  }

  function CsvCandidates(rows: seq<Row>, parse: string -> Num): (c: seq<Option<TimeSeriesData>>)
    ensures |c| == |rows|
  {
    seq(|rows|, i requires 0 <= i < |rows| => CsvRowPoint(rows[i], i, parse))
  }

  /** The points the CSV loop keeps, and the rows they come from. */
  function CsvKept(rows: seq<Row>, parse: string -> Num): seq<TimeSeriesData> {
    Survivors(CsvCandidates(rows, parse))
  }

  function CsvKeptRows(rows: seq<Row>, parse: string -> Num): seq<nat> {
    SurvivorIndices(CsvCandidates(rows, parse))
  }

  /** What `parseCSVData` returns (`Success`) or throws (`Failure`) on Papa's output. */
  function CsvResult(papa: PapaResult, parse: string -> Num): (r: Result<seq<TimeSeriesData>, string>)
    ensures r.Failure? <==> |papa.errors| > 0 || CsvKept(papa.data, parse) == []
    ensures r.Success? ==> r.value == CsvKept(papa.data, parse) && |r.value| >= 1
  {
    if |papa.errors| > 0 then
      Failure("Failed to parse CSV: CSV parsing error: " + papa.errors[0])
    else
      var kept := CsvKept(papa.data, parse);
      if |kept| == 0 then Failure("Failed to parse CSV: No valid data found in CSV") else Success(kept)
  }

  /** `parseCSVData`: the row loop with its `push`. */
  method ParseCsvData(csvText: string, papa: string -> PapaResult, parse: string -> Num)
    returns (r: Result<seq<TimeSeriesData>, string>)
    ensures r == CsvResult(papa(csvText), parse)
  {
    var result := papa(csvText);
    if |result.errors| > 0 {
      return Failure("Failed to parse CSV: CSV parsing error: " + result.errors[0]);
    }
    var rows := result.data;
    var timeSeriesData: seq<TimeSeriesData> := [];
    var index := 0;
    ghost var cands := CsvCandidates(rows, parse);
    while index < |rows|
      invariant index <= |rows|
      invariant timeSeriesData == Survivors(cands[..index])
    {
      SurvivorsExtend(cands, index);
      ghost var point, before := cands[index], timeSeriesData;
      assert point == CsvRowPoint(rows[index], index, parse);
      var row := rows[index];
      var timestamp := OrChain(row, TimestampColumns, NatToString(index));
      var value := parse(OrChain(row, ValueColumns, "0"));
      if !IsNaN(value) {
        timeSeriesData := timeSeriesData + [TimeSeriesData(timestamp, value)];
      }
      assert timeSeriesData == before + (if point.Some? then [point.value] else []);
      index := index + 1;
    }
    assert cands[..|rows|] == cands;
    if |timeSeriesData| == 0 {
      return Failure("Failed to parse CSV: No valid data found in CSV");
    }
    return Success(timeSeriesData);
  }

  /** Any PapaParse error makes the parse fail with the first error's message. */
  lemma CsvReportsFirstPapaError(papa: PapaResult, parse: string -> Num)
    requires |papa.errors| > 0
    ensures CsvResult(papa, parse) ==
              Failure("Failed to parse CSV: CSV parsing error: " + papa.errors[0])
  {
  }

  /** The timestamp is the first truthy of `timestamp`, `date`, `time`, else the
      row index in decimal. */
  lemma CsvTimestampPrecedence(row: Row, index: nat)
    ensures Truthy(row, "timestamp") ==> CsvTimestamp(row, index) == row["timestamp"]
    ensures !Truthy(row, "timestamp") && Truthy(row, "date") ==>
              CsvTimestamp(row, index) == row["date"]
    ensures !Truthy(row, "timestamp") && !Truthy(row, "date") && Truthy(row, "time") ==>
              CsvTimestamp(row, index) == row["time"]
    ensures !Truthy(row, "timestamp") && !Truthy(row, "date") && !Truthy(row, "time") ==>
              CsvTimestamp(row, index) == NatToString(index)
  {
    var k := FirstTruthy(row, TimestampColumns);
    assert TimestampColumns[0] == "timestamp" && TimestampColumns[1] == "date";
    assert TimestampColumns[2] == "time";
  }

  /** The value text is the first truthy of `value`, `price`, `amount`, `y`,
      else `"0"`; an unusable first choice is not skipped for a later one. */
  lemma CsvValuePrecedence(row: Row)
    ensures Truthy(row, "value") ==> CsvValueText(row) == row["value"]
    ensures !Truthy(row, "value") && Truthy(row, "price") ==> CsvValueText(row) == row["price"]
    ensures !Truthy(row, "value") && !Truthy(row, "price") && Truthy(row, "amount") ==>
              CsvValueText(row) == row["amount"]
    ensures (!Truthy(row, "value") && !Truthy(row, "price") && !Truthy(row, "amount") &&
             Truthy(row, "y")) ==> CsvValueText(row) == row["y"]
    ensures (!Truthy(row, "value") && !Truthy(row, "price") && !Truthy(row, "amount") &&
             !Truthy(row, "y")) ==> CsvValueText(row) == "0"
  {
    var k := FirstTruthy(row, ValueColumns);
    assert ValueColumns[0] == "value" && ValueColumns[1] == "price";
    assert ValueColumns[2] == "amount" && ValueColumns[3] == "y";
  }

  /** A row with no usable value column is kept, with value 0, rather than dropped. */
  lemma CsvMissingValueIsZero(row: Row, index: nat, parse: string -> Num)
    requires forall c :: c in ValueColumns ==> !Truthy(row, c)
    requires parse("0") == Finite(0.0)
    ensures CsvRowPoint(row, index, parse) ==
              Some(TimeSeriesData(CsvTimestamp(row, index), Finite(0.0)))
  {
    CsvValuePrecedence(row);
    assert "value" in ValueColumns && "price" in ValueColumns;
    assert "amount" in ValueColumns && "y" in ValueColumns;
  }

  /** The kept CSV points: at most one per row, in row order, each built from
      the row it names. */
  lemma CsvKeptFrom(rows: seq<Row>, parse: string -> Num)
    ensures |CsvKept(rows, parse)| == |CsvKeptRows(rows, parse)| <= |rows|
    ensures forall k :: 0 <= k < |CsvKeptRows(rows, parse)| ==>
              CsvKeptRows(rows, parse)[k] < |rows| &&
              CsvKept(rows, parse)[k] == TimeSeriesData(
                CsvTimestamp(rows[CsvKeptRows(rows, parse)[k]], CsvKeptRows(rows, parse)[k]),
                parse(CsvValueText(rows[CsvKeptRows(rows, parse)[k]])))
    ensures forall k, l :: 0 <= k < l < |CsvKeptRows(rows, parse)| ==>
              CsvKeptRows(rows, parse)[k] < CsvKeptRows(rows, parse)[l]
  {
    var cands := CsvCandidates(rows, parse);
    SurvivorsAt(cands);
    var ix, r := SurvivorIndices(cands), Survivors(cands);
    forall k | 0 <= k < |ix|
      ensures ix[k] < |rows| &&
              r[k] == TimeSeriesData(CsvTimestamp(rows[ix[k]], ix[k]), parse(CsvValueText(rows[ix[k]])))
    {
      assert cands[ix[k]] == Some(r[k]);
    }
  }

  /** A row is dropped exactly when its chosen value text parses to NaN, so no
      kept point is NaN. */
  lemma CsvKeptExactly(rows: seq<Row>, parse: string -> Num)
    ensures forall i :: 0 <= i < |rows| ==>
              (i in CsvKeptRows(rows, parse) <==> !IsNaN(parse(CsvValueText(rows[i]))))
    ensures forall k :: 0 <= k < |CsvKept(rows, parse)| ==> !IsNaN(CsvKept(rows, parse)[k].value)
  {
    var cands := CsvCandidates(rows, parse);
    SurvivorsSatisfy(cands, (p: TimeSeriesData) => !IsNaN(p.value));
    assert forall i :: 0 <= i < |rows| ==> cands[i] == CsvRowPoint(rows[i], i, parse);
  }

  /** With no Papa error, the parse fails exactly when every row's value is NaN. */
  lemma CsvFailsOnlyWhenNothingSurvives(papa: PapaResult, parse: string -> Num)
    requires papa.errors == []
    ensures CsvResult(papa, parse).Failure? <==>
              forall i :: 0 <= i < |papa.data| ==> IsNaN(parse(CsvValueText(papa.data[i])))
    ensures CsvResult(papa, parse).Failure? ==>
              CsvResult(papa, parse).error == "Failed to parse CSV: No valid data found in CSV"
    ensures CsvResult(papa, parse).Success? ==>
              CsvResult(papa, parse).value == CsvKept(papa.data, parse)
  {
    var cands := CsvCandidates(papa.data, parse);
    SurvivorsEmpty(cands);
    assert forall i :: 0 <= i < |papa.data| ==> cands[i] == CsvRowPoint(papa.data[i], i, parse);
  }

  // ---------------------------------------------------------------- free text

  /** The lines of the outer-trimmed text; blank ones included. */
  function TextLines(text: string): (lines: seq<string>)
    ensures |lines| >= 1
  {
    Split(Trim(text), '\n')
  }

  /** `parts.map(p => p.trim())` */
  function TrimAll(parts: seq<string>): (r: seq<string>)
    ensures |r| == |parts|
    ensures forall i :: 0 <= i < |r| ==> |r[i]| <= |parts[i]|
    ensures forall i :: 0 <= i < |r| ==> r[i] == [] || (!IsSpace(r[i][0]) && !IsSpace(r[i][|r[i]| - 1]))
  {
    seq(|parts|, i requires 0 <= i < |parts| => Trim(parts[i]))
  }

  /** The trimmed comma fields of a trimmed, non-blank line. */
  function LineFields(trimmed: string): (parts: seq<string>)
    ensures |parts| >= 1
  {
    TrimAll(Split(trimmed, ','))
  }

  /** The point a line with these fields contributes: `timestamp,value`, or a
      bare value labelled by the line index. */
  function FieldsPoint(parts: seq<string>, index: nat, parse: string -> Num): (p: Option<TimeSeriesData>)
    ensures parts == [] ==> p.None?
    ensures |parts| >= 2 ==> (p.Some? <==> !IsNaN(parse(parts[1])))
    ensures |parts| >= 2 && p.Some? ==> p.value.timestamp == parts[0]
    ensures |parts| == 1 ==> (p.Some? <==> !IsNaN(parse(parts[0])))
    ensures |parts| == 1 && p.Some? ==> p.value.timestamp == NatToString(index)
    ensures p.Some? ==> !IsNaN(p.value.value)
  {
    if |parts| >= 2 then
      var value := parse(parts[1]);
      if IsNaN(value) then None else Some(TimeSeriesData(parts[0], value))
    else if |parts| == 1 then
      var value := parse(parts[0]);
      if IsNaN(value) then None else Some(TimeSeriesData(NatToString(index), value))
    else
      None
  }

  /** The point line `index` contributes, if any: none for a blank line. */
  function TextLinePoint(line: string, index: nat, parse: string -> Num): (p: Option<TimeSeriesData>)
    ensures (forall i :: 0 <= i < |line| ==> IsSpace(line[i])) ==> p.None?
    ensures p.Some? ==> !IsNaN(p.value.value)
  {
    var trimmed := Trim(line);
    if trimmed == [] then None else FieldsPoint(LineFields(trimmed), index, parse)
  }

  function TextCandidates(lines: seq<string>, parse: string -> Num): (c: seq<Option<TimeSeriesData>>)
    ensures |c| == |lines|
  {
    seq(|lines|, i requires 0 <= i < |lines| => TextLinePoint(lines[i], i, parse))
  }

  /** The points kept from a list of lines, and the lines they come from. */
  function LinesKept(lines: seq<string>, parse: string -> Num): seq<TimeSeriesData> {
    Survivors(TextCandidates(lines, parse))
  }

  function LinesKeptIndices(lines: seq<string>, parse: string -> Num): seq<nat> {
    SurvivorIndices(TextCandidates(lines, parse))
  }

  /** The points the text loop keeps, and the lines they come from. */
  function TextKept(text: string, parse: string -> Num): seq<TimeSeriesData> {
    LinesKept(TextLines(text), parse)
  }

  function TextKeptLines(text: string, parse: string -> Num): seq<nat> {
    LinesKeptIndices(TextLines(text), parse)
  }

  /** What `parseTextData` returns (`Success`) or throws (`Failure`). */
  function TextResult(text: string, parse: string -> Num): (r: Result<seq<TimeSeriesData>, string>)
    ensures r.Failure? <==> TextKept(text, parse) == []
    ensures r.Failure? ==> r.error == "Failed to parse text data: No valid data found in text"
    ensures r.Success? ==> r.value == TextKept(text, parse) && |r.value| >= 1
  {
    var kept := TextKept(text, parse);
    if |kept| == 0 then Failure("Failed to parse text data: No valid data found in text") else Success(kept)
  }

  /** `parseTextData`: the line loop with its `push`. */
  method ParseTextData(textData: string, parse: string -> Num)
    returns (r: Result<seq<TimeSeriesData>, string>)
    ensures r == TextResult(textData, parse)
  {
    var lines := Split(Trim(textData), '\n');
    var timeSeriesData: seq<TimeSeriesData> := [];
    var index := 0;
    ghost var cands := TextCandidates(lines, parse);
    while index < |lines|
      invariant index <= |lines|
      invariant timeSeriesData == Survivors(cands[..index])
    {
      SurvivorsExtend(cands, index);
      ghost var point, before := cands[index], timeSeriesData;
      assert point == TextLinePoint(lines[index], index, parse);
      var trimmedLine := Trim(lines[index]);
      if trimmedLine != [] {
        var parts := TrimAll(Split(trimmedLine, ','));
        assert point == FieldsPoint(parts, index, parse);
        if |parts| >= 2 {
          var value := parse(parts[1]);
          if !IsNaN(value) {
            timeSeriesData := timeSeriesData + [TimeSeriesData(parts[0], value)];
          }
        } else if |parts| == 1 {
          var value := parse(parts[0]);
          if !IsNaN(value) {
            timeSeriesData := timeSeriesData + [TimeSeriesData(NatToString(index), value)];
          }
        }
      } else {
        assert point == None;
      }
      assert timeSeriesData == before + (if point.Some? then [point.value] else []);
      index := index + 1;
    }
    assert cands[..|lines|] == cands;
    if |timeSeriesData| == 0 {
      return Failure("Failed to parse text data: No valid data found in text");
    }
    return Success(timeSeriesData);
  }

  /** A blank line contributes nothing (but still takes up an index). */
  lemma TextBlankLine(line: string, index: nat, parse: string -> Num)
    requires forall i :: 0 <= i < |line| ==> IsSpace(line[i])
    ensures TextLinePoint(line, index, parse) == None
  {
  }

  /** The first two pieces of a string with at least one separator. */
  lemma SplitTwo(first: string, second: string, rest: string, sep: char)
    requires sep !in first && sep !in second
    requires rest == [] || rest[0] == sep
    ensures |Split(first + [sep] + second + rest, sep)| >= 2
    ensures Split(first + [sep] + second + rest, sep)[0] == first
    ensures Split(first + [sep] + second + rest, sep)[1] == second
  {
    assert first + [sep] + second + rest == first + [sep] + (second + rest);
    SplitAtFirst(first, sep, second + rest);
    if rest == [] {
      assert second + rest == second;
      SplitNoSeparator(second, sep);
    } else {
      assert second + rest == second + [sep] + rest[1..];
      SplitAtFirst(second, sep, rest[1..]);
    }
  }

  /** A line with at least two comma fields is `timestamp,value`: the trimmed
      first field labels the parsed trimmed second one; later fields are ignored. */
  lemma TextTwoFields(line: string, index: nat, parse: string -> Num,
                      first: string, second: string, rest: string)
    requires Trim(line) == first + [','] + second + rest
    requires ',' !in first && ',' !in second
    requires rest == [] || rest[0] == ','
    ensures TextLinePoint(line, index, parse) ==
              if IsNaN(parse(Trim(second))) then None
              else Some(TimeSeriesData(Trim(first), parse(Trim(second))))
  {
    SplitTwo(first, second, rest, ',');
    var parts := LineFields(Trim(line));
    assert |parts| >= 2 && parts[0] == Trim(first) && parts[1] == Trim(second);
  }

  /** A non-blank line without a comma is a bare value, labelled by its line index. */
  lemma TextOneField(line: string, index: nat, parse: string -> Num)
    requires Trim(line) != [] && ',' !in Trim(line)
    ensures TextLinePoint(line, index, parse) ==
              if IsNaN(parse(Trim(line))) then None
              else Some(TimeSeriesData(NatToString(index), parse(Trim(line))))
  {
    SplitNoSeparator(Trim(line), ',');
    TrimIdempotent(line);
    assert LineFields(Trim(line)) == [Trim(line)];
  }

  /** Each kept point of a list of lines is the one its line yields, and there
      are at most as many as lines. */
  lemma LinesKeptFrom(lines: seq<string>, parse: string -> Num)
    ensures |LinesKept(lines, parse)| == |LinesKeptIndices(lines, parse)| <= |lines|
    ensures forall k :: 0 <= k < |LinesKeptIndices(lines, parse)| ==>
              LinesKeptIndices(lines, parse)[k] < |lines| &&
              TextLinePoint(lines[LinesKeptIndices(lines, parse)[k]],
                            LinesKeptIndices(lines, parse)[k], parse)
                == Some(LinesKept(lines, parse)[k])
  {
    var cands := TextCandidates(lines, parse);
    SurvivorsAt(cands);
    var ix, r := SurvivorIndices(cands), Survivors(cands);
    forall k | 0 <= k < |ix|
      ensures ix[k] < |lines| && TextLinePoint(lines[ix[k]], ix[k], parse) == Some(r[k])
    {
      assert cands[ix[k]] == Some(r[k]);
    }
  }

  /** A line's point is kept exactly when it yields one; none of them is NaN. */
  lemma LinesKeptExactly(lines: seq<string>, parse: string -> Num)
    ensures forall i :: 0 <= i < |lines| ==>
              (i in LinesKeptIndices(lines, parse) <==> TextLinePoint(lines[i], i, parse).Some?)
    ensures forall k :: 0 <= k < |LinesKept(lines, parse)| ==>
              !IsNaN(LinesKept(lines, parse)[k].value)
  {
    var cands := TextCandidates(lines, parse);
    SurvivorsSatisfy(cands, (p: TimeSeriesData) => !IsNaN(p.value));
    assert forall i :: 0 <= i < |lines| ==> cands[i] == TextLinePoint(lines[i], i, parse);
  }

  /** The kept text points: at most one per line of the trimmed text, in line
      order, none of them NaN, each taken from the line it names. */
  lemma TextKeptSpec(text: string, parse: string -> Num)
    ensures |TextKept(text, parse)| == |TextKeptLines(text, parse)| <= |TextLines(text)|
    ensures forall k :: 0 <= k < |TextKeptLines(text, parse)| ==>
              TextKeptLines(text, parse)[k] < |TextLines(text)| &&
              TextLinePoint(TextLines(text)[TextKeptLines(text, parse)[k]],
                            TextKeptLines(text, parse)[k], parse)
                == Some(TextKept(text, parse)[k])
    ensures forall k, l :: 0 <= k < l < |TextKeptLines(text, parse)| ==>
              TextKeptLines(text, parse)[k] < TextKeptLines(text, parse)[l]
    ensures forall i :: 0 <= i < |TextLines(text)| ==>
              (i in TextKeptLines(text, parse) <==> TextLinePoint(TextLines(text)[i], i, parse).Some?)
    ensures forall k :: 0 <= k < |TextKept(text, parse)| ==> !IsNaN(TextKept(text, parse)[k].value)
  {
    LinesKeptFrom(TextLines(text), parse);
    LinesKeptExactly(TextLines(text), parse);
  }

  /** The text parse fails exactly when no line yields a point. */
  lemma TextFailsOnlyWhenNothingSurvives(text: string, parse: string -> Num)
    ensures TextResult(text, parse).Failure? <==>
              forall i :: 0 <= i < |TextLines(text)| ==> TextLinePoint(TextLines(text)[i], i, parse).None?
    ensures TextResult(text, parse).Failure? ==>
              TextResult(text, parse).error == "Failed to parse text data: No valid data found in text"
    ensures TextResult(text, parse).Success? ==>
              TextResult(text, parse).value == TextKept(text, parse)
  {
    var lines := TextLines(text);
    var cands := TextCandidates(lines, parse);
    SurvivorsEmpty(cands);
    assert forall i :: 0 <= i < |lines| ==> cands[i] == TextLinePoint(lines[i], i, parse);
  }

  // ---------------------------------------------------------------- validation

  /** `data.some(d => !isNaN(d.value) && isFinite(d.value))` */
  function HasFiniteValue(data: seq<TimeSeriesData>): (b: bool)
    ensures b <==> exists i :: 0 <= i < |data| && IsFinite(data[i].value)
  {
    if data == [] then false
    else if IsFinite(data[0].value) then true
    else
      var rest := HasFiniteValue(data[1..]);
      assert forall i :: 1 <= i < |data| ==> data[i] == data[1..][i - 1];
      rest
  }

  /** `validateTimeSeriesData`: `None` means valid, otherwise the first failed rule. */
  function ValidateTimeSeriesData(data: seq<TimeSeriesData>): (reason: Option<string>)
    ensures reason.None? <==> |data| >= 2 && HasFiniteValue(data)
    ensures reason.Some? ==>
              reason.value in ["No data provided", "At least 2 data points are required", "No valid numeric values found"]
  {
    if |data| == 0 then Some("No data provided")
    else if |data| < 2 then Some("At least 2 data points are required")
    else if !HasFiniteValue(data) then Some("No valid numeric values found")
    else None
  }

  /** The validator's reasons, first match wins. */
  lemma ValidateReasons(data: seq<TimeSeriesData>)
    ensures |data| == 0 ==> ValidateTimeSeriesData(data) == Some("No data provided")
    ensures |data| == 1 ==> ValidateTimeSeriesData(data) == Some("At least 2 data points are required")
    ensures |data| >= 2 && (forall i :: 0 <= i < |data| ==> !IsFinite(data[i].value)) ==>
              ValidateTimeSeriesData(data) == Some("No valid numeric values found")
  {
  }

  /** The validator accepts exactly the series of two or more points with a finite value. */
  lemma ValidateAcceptsIff(data: seq<TimeSeriesData>)
    ensures ValidateTimeSeriesData(data) == None <==>
              |data| >= 2 && exists i :: 0 <= i < |data| && IsFinite(data[i].value)
  {
  }

  // ---------------------------------------------------------------- scenarios

  /** A line that is one number: not blank, no white space at its ends, no
      comma, no line break, and not NaN. */
  predicate IsBareValue(s: string, parse: string -> Num) {
    s != [] && !IsSpace(s[0]) && !IsSpace(s[|s| - 1]) && ',' !in s && '\n' !in s && !IsNaN(parse(s))
  }

  /** A bare number on line `index` is the point labelled with that index. */
  lemma BareValueLine(line: string, index: nat, parse: string -> Num)
    requires IsBareValue(line, parse)
    ensures TextLinePoint(line, index, parse) == Some(TimeSeriesData(NatToString(index), parse(line)))
  {
    TrimOfTrimmed(line);
    TextOneField(line, index, parse);
  }

  /** Lines that each hold one bare number give the numbers labelled by their
      line indices, in order. */
  lemma BareValueLines(lines: seq<string>, parse: string -> Num)
    requires forall i :: 0 <= i < |lines| ==> IsBareValue(lines[i], parse)
    ensures |LinesKept(lines, parse)| == |lines|
    ensures forall i :: 0 <= i < |lines| ==>
              LinesKept(lines, parse)[i] == TimeSeriesData(NatToString(i), parse(lines[i]))
  {
    var cands := TextCandidates(lines, parse);
    forall i | 0 <= i < |lines|
      ensures cands[i] == Some(TimeSeriesData(NatToString(i), parse(lines[i])))
    {
      BareValueLine(lines[i], i, parse);
    }
    SurvivorsAllSome(cands);
  }

  /** The lines of a join of bare numbers are those numbers. */
  lemma BareValueJoinLines(lines: seq<string>, parse: string -> Num)
    requires |lines| >= 1
    requires forall i :: 0 <= i < |lines| ==> IsBareValue(lines[i], parse)
    ensures TextLines(Join(lines, '\n')) == lines
  {
    JoinTrimmed(lines, '\n');
    SplitJoin(lines, '\n');
  }

  /** Joining pieces with no white space at their ends gives its own trim. */
  lemma JoinTrimmed(lines: seq<string>, sep: char)
    requires |lines| >= 1
    requires forall i :: 0 <= i < |lines| ==>
               lines[i] != [] && !IsSpace(lines[i][0]) && !IsSpace(lines[i][|lines[i]| - 1])
    ensures Trim(Join(lines, sep)) == Join(lines, sep)
  {
    JoinEnds(lines, sep);
    TrimOfTrimmed(Join(lines, sep));
  }

  /** Text with one number per line is the numbers labelled "0", "1", ... in order. */
  lemma BareValueText(lines: seq<string>, parse: string -> Num)
    requires |lines| >= 1
    requires forall i :: 0 <= i < |lines| ==> IsBareValue(lines[i], parse)
    ensures |TextKept(Join(lines, '\n'), parse)| == |lines|
    ensures forall i :: 0 <= i < |lines| ==>
              TextKept(Join(lines, '\n'), parse)[i] == TimeSeriesData(NatToString(i), parse(lines[i]))
  {
    BareValueJoinLines(lines, parse);
    BareValueLines(lines, parse);
  }

  /** The decimal labels of the first lines. */
  lemma SmallLabels()
    ensures NatToString(0) == "0" && NatToString(1) == "1" && NatToString(2) == "2"
  {
    assert DigitChar(0) == '0' && DigitChar(1) == '1' && DigitChar(2) == '2';
  }

  /** The numbers of the scenarios below are bare values, whenever they parse. */
  lemma BareLiterals(parse: string -> Num)
    ensures !IsNaN(parse("100")) ==> IsBareValue("100", parse)
    ensures !IsNaN(parse("105")) ==> IsBareValue("105", parse)
    ensures !IsNaN(parse("102")) ==> IsBareValue("102", parse)
    ensures !IsNaN(parse("Infinity")) ==> IsBareValue("Infinity", parse)
  {
  }

  /** Three lines of one bare value each. */
  lemma ThreeBareValues(a: string, b: string, c: string, parse: string -> Num)
    requires IsBareValue(a, parse) && IsBareValue(b, parse) && IsBareValue(c, parse)
    ensures TextKept(a + "\n" + b + "\n" + c, parse) ==
              [TimeSeriesData("0", parse(a)), TimeSeriesData("1", parse(b)), TimeSeriesData("2", parse(c))]
  {
    var text := a + "\n" + b + "\n" + c;
    var lines := [a, b, c];
    JoinCons(b, [c], '\n');
    JoinCons(a, [b, c], '\n');
    assert Join(lines, '\n') == text;
    BareValueText(lines, parse);
    SmallLabels();
    var kept := TextKept(text, parse);
    assert kept == [kept[0], kept[1], kept[2]];
  }

  /** Two lines of one bare value each. */
  lemma TwoBareValues(a: string, b: string, parse: string -> Num)
    requires IsBareValue(a, parse) && IsBareValue(b, parse)
    ensures TextKept(a + "\n" + b, parse) == [TimeSeriesData("0", parse(a)), TimeSeriesData("1", parse(b))]
  {
    var text := a + "\n" + b;
    var lines := [a, b];
    assert Join(lines, '\n') == text;
    BareValueText(lines, parse);
    SmallLabels();
    var kept := TextKept(text, parse);
    assert kept == [kept[0], kept[1]];
  }

  /** One line holding one bare value. */
  lemma OneBareValue(a: string, parse: string -> Num)
    requires IsBareValue(a, parse)
    ensures TextKept(a, parse) == [TimeSeriesData("0", parse(a))]
  {
    var lines := [a];
    assert Join(lines, '\n') == a;
    BareValueText(lines, parse);
    SmallLabels();
    var kept := TextKept(a, parse);
    assert kept == [kept[0]];
  }

  /** `"100\n105\n102"`: one bare value per line, labelled "0", "1", "2"; it validates. */
  lemma ScenarioBareValues(parse: string -> Num)
    requires parse("100") == Finite(100.0) && parse("105") == Finite(105.0)
    requires parse("102") == Finite(102.0)
    ensures TextResult("100\n105\n102", parse) == Success([
              TimeSeriesData("0", Finite(100.0)),
              TimeSeriesData("1", Finite(105.0)),
              TimeSeriesData("2", Finite(102.0))])
    ensures ValidateTimeSeriesData(TextKept("100\n105\n102", parse)) == None
  {
    BareLiterals(parse);
    assert "100\n105\n102" == "100" + "\n" + "105" + "\n" + "102";
    ThreeBareValues("100", "105", "102", parse);
  }

  /** `"100"` alone parses to one point, which the validator rejects. */
  lemma ScenarioSingleValue(parse: string -> Num)
    requires parse("100") == Finite(100.0)
    ensures TextResult("100", parse) == Success([TimeSeriesData("0", Finite(100.0))])
    ensures ValidateTimeSeriesData(TextKept("100", parse)) ==
              Some("At least 2 data points are required")
  {
    BareLiterals(parse);
    OneBareValue("100", parse);
  }

  /** A series of infinities gets through the parser but not the validator. */
  lemma ScenarioAllInfinite(parse: string -> Num)
    requires parse("Infinity") == Infinity(false)
    ensures TextResult("Infinity\nInfinity", parse) == Success([
              TimeSeriesData("0", Infinity(false)),
              TimeSeriesData("1", Infinity(false))])
    ensures ValidateTimeSeriesData(TextKept("Infinity\nInfinity", parse)) ==
              Some("No valid numeric values found")
  {
    BareLiterals(parse);
    assert "Infinity\nInfinity" == "Infinity" + "\n" + "Infinity";
    TwoBareValues("Infinity", "Infinity", parse);
  }
}
