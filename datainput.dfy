/** The input form of `src/components/DataInput.tsx`: six pieces of state,
    overwritten by its handlers. Every change of input runs a parser and then
    the validator, and only a series that passes both is kept, so submission
    forwards only validated data together with a step count of at least one.

    The `FileReader` callback is a method that receives the file's text;
    PapaParse and `parseFloat` are parameters, as in the parser. */
module DataInputForm {
  import opened Types
  import opened JsString
  import opened DataParser

  datatype InputMethod = Upload | Text

  /** A chosen file; the form only shows its name. */
  datatype FileRef = FileRef(name: string)

  /** What a parse followed by validation leaves in the form. */
  datatype Ingest = Ingest(error: Option<string>, parsedData: seq<TimeSeriesData>)

  /** The common tail of `reader.onload` and `handleTextChange`: a parser
      failure or a validation reason becomes the error and empties the data;
      a series that validates is kept and clears the error. */
  function Ingested(parsed: Result<seq<TimeSeriesData>, string>): (o: Ingest)
    ensures o.error.Some? <==> o.parsedData == []
    ensures o.parsedData != [] ==> ValidateTimeSeriesData(o.parsedData) == None
    ensures parsed.Failure? ==> o == Ingest(Some(parsed.error), [])
    ensures parsed.Success? && ValidateTimeSeriesData(parsed.value).Some? ==>
              o == Ingest(ValidateTimeSeriesData(parsed.value), [])
    ensures parsed.Success? && ValidateTimeSeriesData(parsed.value).None? ==>
              o == Ingest(None, parsed.value)
  {
    match parsed
    case Failure(message) => Ingest(Some(message), [])
    case Success(data) =>
      var validation := ValidateTimeSeriesData(data);
      if validation.Some? then Ingest(validation, []) else Ingest(None, data)
  }

  /** The step editor: `Math.max(1, parseInt(v) || 1)`, where `parsed` is what
      `parseInt` gives (`None` for NaN). NaN and 0 are falsy and become 1. */
  function ClampSteps(parsed: Option<int>): (steps: int)
    ensures steps >= 1
    ensures parsed.Some? && parsed.value >= 1 ==> steps == parsed.value
    ensures parsed.None? || parsed.value < 1 ==> steps == 1
  {
    var orOne := if parsed.Some? && parsed.value != 0 then parsed.value else 1;
    if orOne > 1 then orOne else 1
  }

  /** The preview table: the first ten points, numbered from 1. */
  function PreviewRows(data: seq<TimeSeriesData>): (rows: seq<(nat, TimeSeriesData)>)
    ensures |rows| <= 10 && |rows| <= |data|
    ensures |rows| == 10 || |rows| == |data|
    ensures forall k :: 0 <= k < |rows| ==> rows[k] == (k + 1, data[k])
  {
    var shown := if |data| < 10 then data else data[..10];
    seq(|shown|, k requires 0 <= k < |shown| => (k + 1, shown[k]))
  }

  /** The "... and N more rows" line, shown only past ten points. */
  function MoreRows(data: seq<TimeSeriesData>): (more: Option<nat>)
    ensures more.Some? <==> |data| > 10
  {
    if |data| > 10 then Some(|data| - 10) else None
  }

  /** The preview accounts for every point exactly once: the rows shown plus
      the rows counted. */
  lemma PreviewAccountsForAll(data: seq<TimeSeriesData>)
    ensures |PreviewRows(data)| + (if MoreRows(data).Some? then MoreRows(data).value else 0) == |data|
    ensures MoreRows(data).Some? ==> |PreviewRows(data)| == 10
  {
  }

  /** JavaScript truthiness of a `string | null`: present and not empty. */
  predicate IsTruthy(s: Option<string>) {
    s.Some? && s.value != []
  }

  class DataInput {
    var inputMethod: InputMethod
    var csvFile: Option<FileRef>
    var textData: string
    var predictionSteps: int
    var error: Option<string>
    var parsedData: seq<TimeSeriesData>

    /** Kept by every handler: at least one step is asked for, an error leaves
        no data behind, and the data held has passed the validator. */
    ghost predicate Valid()
      reads this
    {
      && predictionSteps >= 1
      && (error.Some? ==> parsedData == [])
      && (parsedData != [] ==> ValidateTimeSeriesData(parsedData) == None)
    }

    /** `isDataValid`: data is held and the error is falsy (absent or empty). */
    function IsDataValid(): (b: bool)
      reads this
      requires Valid()
      ensures b <==> parsedData != []
      ensures b ==> |parsedData| >= 2
    {
      |parsedData| > 0 && !IsTruthy(error)
    }

    constructor ()
      ensures Valid()
      ensures inputMethod == Upload && csvFile == None && textData == []
      ensures predictionSteps == 10 && error == None && parsedData == []
    {
      inputMethod := Upload;
      csvFile := None;
      textData := [];
      predictionSteps := 10;
      error := None;
      parsedData := [];
    }

    /** The two method buttons. */
    method SelectMethod(m: InputMethod)
      modifies this
      requires Valid()
      ensures Valid() && inputMethod == m
      ensures csvFile == old(csvFile) && textData == old(textData)
      ensures predictionSteps == old(predictionSteps)
      ensures error == old(error) && parsedData == old(parsedData)
    {
      inputMethod := m;
    }

    /** The synchronous part of `handleFileUpload`: with a file chosen, it is
        recorded and the error cleared, and reading starts; the data held is
        left until the read ends. */
    method ChooseFile(file: Option<FileRef>) returns (reading: bool)
      modifies this
      requires Valid()
      ensures Valid() && (reading <==> file.Some?)
      ensures csvFile == (if file.Some? then file else old(csvFile))
      ensures error == (if file.Some? then None else old(error))
      ensures inputMethod == old(inputMethod) && textData == old(textData)
      ensures predictionSteps == old(predictionSteps) && parsedData == old(parsedData)
    {
      reading := file.Some?;
      if file.Some? {
        csvFile := file;
        error := None;
      }
    }

    /** `reader.onload`: the file's text through the CSV parser and the validator. */
    method FileLoaded(csvText: string, papa: string -> PapaResult, parse: string -> Num)
      modifies this
      requires Valid()
      ensures Valid()
      ensures Ingest(error, parsedData) == Ingested(CsvResult(papa(csvText), parse))
      ensures inputMethod == old(inputMethod) && csvFile == old(csvFile)
      ensures textData == old(textData) && predictionSteps == old(predictionSteps)
    {
      var data := ParseCsvData(csvText, papa, parse);
      var outcome := Ingested(data);
      error := outcome.error;
      parsedData := outcome.parsedData;
    }

    /** `handleTextChange`: blank text clears the data and the error; other
        text goes through the text parser and the validator. */
    method TextChange(value: string, parse: string -> Num)
      modifies this
      requires Valid()
      ensures Valid() && textData == value
      ensures Trim(value) == [] ==> error == None && parsedData == []
      ensures Trim(value) != [] ==>
                Ingest(error, parsedData) == Ingested(TextResult(value, parse))
      ensures inputMethod == old(inputMethod) && csvFile == old(csvFile)
      ensures predictionSteps == old(predictionSteps)
    {
      textData := value;
      error := None;
      if Trim(value) != [] {
        var data := ParseTextData(value, parse);
        var outcome := Ingested(data);
        error := outcome.error;
        parsedData := outcome.parsedData;
      } else {
        parsedData := [];
      }
    }

    /** The steps field's `onChange`. */
    method EditSteps(parsed: Option<int>)
      modifies this
      requires Valid()
      ensures Valid() && predictionSteps == ClampSteps(parsed)
      ensures inputMethod == old(inputMethod) && csvFile == old(csvFile)
      ensures textData == old(textData) && error == old(error) && parsedData == old(parsedData)
    {
      predictionSteps := ClampSteps(parsed);
    }

    /** `handleSubmit`: what is handed to the application, if anything. */
    method Submit() returns (sent: Option<(seq<TimeSeriesData>, int)>)
      requires Valid()
      ensures sent.Some? <==> parsedData != []
      ensures sent.Some? ==> sent.value == (parsedData, predictionSteps)
      ensures sent.Some? ==> ValidateTimeSeriesData(sent.value.0) == None && sent.value.1 >= 1
    {
      if |parsedData| > 0 {
        sent := Some((parsedData, predictionSteps));
      } else {
        sent := None;
      }
    }

    /** `clearFile` */
    method ClearFile()
      modifies this
      requires Valid()
      ensures Valid() && csvFile == None && parsedData == [] && error == None
      ensures inputMethod == old(inputMethod) && textData == old(textData)
      ensures predictionSteps == old(predictionSteps)
    {
      csvFile := None;
      parsedData := [];
      error := None;
    }

    /** `clearText` */
    method ClearText()
      modifies this
      requires Valid()
      ensures Valid() && textData == [] && parsedData == [] && error == None
      ensures inputMethod == old(inputMethod) && csvFile == old(csvFile)
      ensures predictionSteps == old(predictionSteps)
    {
      textData := [];
      parsedData := [];
      error := None;
    }
  }
}
