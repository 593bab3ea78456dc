# LSTM-Frontend ingestion and view state, in Dafny

LSTM-Frontend is a single-page client for a remote forecasting service. A user
uploads a CSV file or types a series. The client parses it into
`{timestamp, value}` points, validates it, and posts it with a step count.
It then draws the original series and the forecast on one chart. This project
models the parts of that client that have logic:

- the ingestion pipeline of `src/utils/dataParser.ts`: the CSV row mapper
  (after PapaParse), the free-text line parser and the validator;
- the three-screen view controller of `src/App.tsx`;
- the input form state of `src/components/DataInput.tsx`;
- the `combinedData` merge of `src/components/Chart.tsx`.

Modules, one per file:

- `Types` (`types.dfy`): the records of `src/types/index.ts` (`TimeSeriesData`,
  `PredictionRequest`, `PredictionResponse`), plus `Option`, `Result` and `Num`.
  `Num` is a JavaScript number: finite, ±infinity or NaN.
- `JsString` (`jsstring.dfy`): `trim`, `split` with a one-character separator,
  and `toString` of a non-negative integer. Each has its partner:
  - trimming is idempotent;
  - `Join` undoes `Split`, and `Split` undoes `Join` on separator-free pieces;
  - the decimal rendering reads back to its number.
- `Selection` (`selection.dfy`): the shape both parser loops share. Every row
  yields a point or nothing, and the kept points are the yielded ones in row
  order. It also gives the row positions they come from.
- `DataParser` (`dataparser.dfy`): specification functions for both parsers
  and the validator, and the two loops as methods proved equal to them. The
  properties are lemmas about the functions.
- `DataInputForm` (`datainput.dfy`): the form as a class with six fields and
  one handler per event. Its invariant: an error leaves no data, and any data
  held has passed the validator.
- `AppView` (`app.dfy`): the view controller as a class. The asynchronous
  submit is split into `BeginSubmit` and then `CompleteSuccess` or
  `CompleteFailure`.
- `ChartData` (`chart.dfy`): the two push loops of `combinedData`, proved
  against a description of the merged list.

Foreign code becomes parameters:

- `parse: string -> Num` is `parseFloat`;
- `papa: string -> PapaResult` is `Papa.parse` with the header-row options. It
  turns the text into rows, each a map from lower-cased, trimmed header to
  cell text, plus the list of error messages;
- the step editor receives `parseInt`'s result as an `Option<int>`, with
  `None` for NaN;
- the `FileReader` `onload` callback is a method that receives the file's text;
- the forecasting service's answer is the argument of `CompleteSuccess` or
  `CompleteFailure`.

Behaviour as written that a reader may not expect:

- The parsers drop only NaN values. The validator's finiteness check is the
  only thing that rejects infinities. A series of only `Infinity` therefore
  parses but does not validate (`ScenarioAllInfinite`).
- The text is trimmed as a whole before it is split into lines. Blank lines
  inside it still take up a line index, so a bare value's timestamp is its
  position among all lines, blank ones included.
- A failed request leaves the screen unchanged. If the user went back home
  while the request was pending, the error is held on the home screen, where
  it is not shown (`LeaveBeforeFailure`). On the input screen it is shown.
- The step count has a lower clamp of 1 and no upper clamp. `max="100"` is
  only an input attribute.
- A CSV row with no usable value column is kept with the value of `"0"`, not
  dropped (`CsvMissingValueIsZero`).

## Model

| member | source | states |
|---|---|---|
| JsString.Trim | src/utils/dataParser.ts:44 | the trim is the infix of the text that starts after its leading white space; it has no white space at either end, everything cut from either end is white space, and it is empty exactly when the text is all white space |
| JsString.TrimIdempotent | src/utils/dataParser.ts:48 | trimming a line again after trimming changes nothing |
| JsString.Split | src/utils/dataParser.ts:44 | splitting gives at least one piece, and no piece contains the separator |
| JsString.JoinSplit | src/utils/dataParser.ts:44 | joining the pieces of a split with the separator gives the text back |
| JsString.SplitJoin | src/utils/dataParser.ts:51 | splitting a join of separator-free pieces gives the pieces back |
| JsString.NatToString | src/utils/dataParser.ts:65 | `index.toString()` is a non-empty digit string without leading zeros, and it is "0" only for 0 |
| JsString.DecimalValueOfNatToString | src/utils/dataParser.ts:65 | the decimal label of a line index reads back as that index |
| JsString.NatToStringInjective | src/utils/dataParser.ts:65 | distinct line indices get distinct labels |
| Selection.Survivors | src/utils/dataParser.ts:47-71 | the `forEach` + `push` result is never longer than the input |
| Selection.SurvivorIndices | src/utils/dataParser.ts:47-71 | the positions of the yielding rows are in range, strictly ascending, and include every yielding row |
| Selection.SurvivorsAt | src/utils/dataParser.ts:19-30 | the k-th kept point is the point of the k-th yielding row |
| Selection.SurvivorsExtend | src/utils/dataParser.ts:24-29 | one more row appends its point, if it yields one, at the end |
| Selection.SurvivorsAllSome | src/utils/dataParser.ts:47-71 | when every row yields a point, every point is kept, in row order |
| Selection.SurvivorsEmpty | src/utils/dataParser.ts:32-34 | nothing is kept exactly when no row yields a point |
| Selection.SurvivorsSatisfy | src/utils/dataParser.ts:24-29 | a property of every yieldable point holds of every kept point |
| DataParser.FirstTruthy | src/utils/dataParser.ts:21-22 | the `\|\|` chain picks the first column whose cell exists and is non-empty; every earlier column is falsy |
| DataParser.OrChain | src/utils/dataParser.ts:21-22 | the `\|\|` chain gives the cell of the first truthy column; with no truthy column it gives the fallback; with one it gives a non-empty cell of the row |
| DataParser.CsvRowPoint | src/utils/dataParser.ts:21-29 | a row yields a point exactly when its chosen value text does not parse to NaN; the point carries the chosen timestamp |
| DataParser.CsvTimestampPrecedence | src/utils/dataParser.ts:21 | the timestamp is `timestamp`, else `date`, else `time`, each only when truthy, else the row index in decimal |
| DataParser.CsvValuePrecedence | src/utils/dataParser.ts:22 | the value text is `value`, else `price`, else `amount`, else `y`, each only when truthy, else "0" |
| DataParser.CsvMissingValueIsZero | src/utils/dataParser.ts:22 | a row with no truthy value column is kept with value 0 rather than dropped |
| DataParser.CsvResult | src/utils/dataParser.ts:4-40 | `parseCSVData` throws exactly when Papa reports an error or no row is kept; otherwise it returns the kept points, at least one |
| DataParser.ParseCsvData | src/utils/dataParser.ts:4-40 | the row loop returns exactly the CSV specification's result on Papa's output |
| DataParser.CsvReportsFirstPapaError | src/utils/dataParser.ts:12-14 | any Papa error fails the parse with "Failed to parse CSV: CSV parsing error: " and the first error's message |
| DataParser.CsvKeptFrom | src/utils/dataParser.ts:19-30 | at most one point per row, in row order; each is the chosen timestamp and the parsed chosen value of the row it names |
| DataParser.CsvKeptExactly | src/utils/dataParser.ts:24 | a row is kept exactly when its chosen value text does not parse to NaN, so no kept value is NaN |
| DataParser.CsvFailsOnlyWhenNothingSurvives | src/utils/dataParser.ts:32-39 | with no Papa error, the parse fails, with "Failed to parse CSV: No valid data found in CSV", exactly when every row's value is NaN, and otherwise returns the kept points |
| DataParser.TextLines | src/utils/dataParser.ts:44 | the outer-trimmed text has at least one line |
| DataParser.TrimAll | src/utils/dataParser.ts:51 | one trimmed field per field, none longer than its original and none with white space at either end |
| DataParser.FieldsPoint | src/utils/dataParser.ts:53-68 | two or more fields yield a point, timestamped by the first field, exactly when the second field parses to a number; one field yields a point, timestamped by the line index, exactly when it parses to a number; no yielded value is NaN |
| DataParser.TextLinePoint | src/utils/dataParser.ts:48-70 | an all-white-space line yields nothing, and no yielded value is NaN |
| DataParser.TextResult | src/utils/dataParser.ts:42-81 | `parseTextData` throws "Failed to parse text data: No valid data found in text" exactly when no line is kept; otherwise it returns the kept points, at least one |
| DataParser.ParseTextData | src/utils/dataParser.ts:42-81 | the line loop returns exactly the text specification's result |
| DataParser.TextBlankLine | src/utils/dataParser.ts:48-49 | a blank line yields nothing, though it takes up an index |
| DataParser.TextTwoFields | src/utils/dataParser.ts:53-60 | a line with two or more comma fields yields the trimmed first field as timestamp and the parsed trimmed second field as value, unless that is NaN; later fields are ignored |
| DataParser.TextOneField | src/utils/dataParser.ts:61-68 | a non-blank line with no comma yields its line index in decimal as timestamp and its parsed text as value, unless that is NaN |
| DataParser.LinesKeptFrom | src/utils/dataParser.ts:47-71 | at most one point per line, in line order, each the one its line yields |
| DataParser.LinesKeptExactly | src/utils/dataParser.ts:55-63 | a line is kept exactly when it yields a point, and no kept value is NaN |
| DataParser.TextKeptSpec | src/utils/dataParser.ts:44-71 | the same facts about the lines of the outer-trimmed text |
| DataParser.TextFailsOnlyWhenNothingSurvives | src/utils/dataParser.ts:73-80 | the text parse fails, with "Failed to parse text data: No valid data found in text", exactly when no line yields a point, and otherwise returns the kept points |
| DataParser.HasFiniteValue | src/utils/dataParser.ts:92 | the `some` holds exactly when some point has a finite value |
| DataParser.ValidateTimeSeriesData | src/utils/dataParser.ts:83-98 | `validateTimeSeriesData` returns null exactly for two or more points with a finite value, and otherwise one of its three reasons |
| DataParser.ValidateReasons | src/utils/dataParser.ts:84-95 | first match wins: empty gives "No data provided", one point gives "At least 2 data points are required", two or more with no finite value give "No valid numeric values found" |
| DataParser.ValidateAcceptsIff | src/utils/dataParser.ts:83-98 | the validator accepts exactly the series of two or more points that include a finite value |
| DataParser.BareValueLine | src/utils/dataParser.ts:61-68 | a line that is one number yields its index label and that number |
| DataParser.BareValueLines | src/utils/dataParser.ts:47-71 | lines that are each one number are all kept, in order, labelled by their indices |
| DataParser.BareValueJoinLines | src/utils/dataParser.ts:44 | the lines of a join of bare numbers are those numbers |
| DataParser.JoinTrimmed | src/utils/dataParser.ts:44 | a join of pieces without edge white space is its own trim |
| DataParser.BareValueText | src/utils/dataParser.ts:42-71 | text with one number per line gives those numbers labelled "0", "1", ... in order |
| DataParser.SmallLabels | src/utils/dataParser.ts:65 | lines 0, 1 and 2 are labelled "0", "1" and "2" |
| DataParser.BareLiterals | src/utils/dataParser.ts:61-68 | "100", "105", "102" and "Infinity" are each one bare value when they parse |
| DataParser.ThreeBareValues | src/utils/dataParser.ts:42-71 | three bare-value lines give three points labelled "0", "1", "2" |
| DataParser.TwoBareValues | src/utils/dataParser.ts:42-71 | two bare-value lines give two points labelled "0", "1" |
| DataParser.OneBareValue | src/utils/dataParser.ts:42-71 | one bare-value line gives one point labelled "0" |
| DataParser.ScenarioBareValues | src/utils/dataParser.ts:42-98 | "100\n105\n102" parses to the points ("0", 100), ("1", 105), ("2", 102), and they validate |
| DataParser.ScenarioSingleValue | src/utils/dataParser.ts:88-90 | "100" parses to one point, which is rejected with "At least 2 data points are required" |
| DataParser.ScenarioAllInfinite | src/utils/dataParser.ts:92-95 | "Infinity\nInfinity" parses, since Infinity is not NaN, but is rejected with "No valid numeric values found" |
| DataInputForm.Ingested | src/components/DataInput.tsx:29-42 | a parse error or a validation reason becomes the error with no data; a validated series is kept with no error; an error is held exactly when no data is |
| DataInputForm.ClampSteps | src/components/DataInput.tsx:211 | the step count is at least 1, is the entered integer when that is at least 1, and is 1 for NaN, 0 or a negative number |
| DataInputForm.PreviewRows | src/components/DataInput.tsx:252-258 | the preview shows the first min(10, n) points, in order, numbered from 1 |
| DataInputForm.MoreRows | src/components/DataInput.tsx:259-262 | the "more rows" line appears exactly when there are more than ten points |
| DataInputForm.PreviewAccountsForAll | src/components/DataInput.tsx:252-262 | shown rows plus the "more rows" count equal the number of points |
| DataInputForm.DataInput.Valid | src/components/DataInput.tsx:12-17 | the invariant of the six state variables, kept by every handler: the step count is at least 1, an error means no data, and any data held has passed `validateTimeSeriesData` |
| DataInputForm.DataInput.IsDataValid | src/components/DataInput.tsx:91 | under the form invariant, the data is valid exactly when data is held, and then it has at least two points |
| DataInputForm.DataInput.constructor | src/components/DataInput.tsx:12-17 | upload method, no file, empty text, 10 steps, no error, no data; the invariant holds |
| DataInputForm.DataInput.SelectMethod | src/components/DataInput.tsx:100-112 | switching input method changes only the method |
| DataInputForm.DataInput.ChooseFile | src/components/DataInput.tsx:19-24 | choosing a file records it and clears the error, leaving the data as it was; no file changes nothing |
| DataInputForm.DataInput.FileLoaded | src/components/DataInput.tsx:26-43 | the file's text goes through the CSV parser and the validator, and the result replaces error and data; the invariant is kept |
| DataInputForm.DataInput.TextChange | src/components/DataInput.tsx:48-71 | the text is stored; blank text clears error and data; other text goes through the text parser and the validator; the invariant is kept |
| DataInputForm.DataInput.EditSteps | src/components/DataInput.tsx:211 | the step count becomes the clamped entry and nothing else changes |
| DataInputForm.DataInput.Submit | src/components/DataInput.tsx:73-77 | data and step count are forwarded exactly when data is held; forwarded data has passed the validator and steps are at least 1 |
| DataInputForm.DataInput.ClearFile | src/components/DataInput.tsx:79-83 | clears the file, the data and the error, and nothing else |
| DataInputForm.DataInput.ClearText | src/components/DataInput.tsx:85-89 | clears the text, the data and the error, and nothing else |
| AppView.FailureMessage | src/App.tsx:33 | a thrown `Error` records its message; anything else records "An unexpected error occurred" |
| AppView.HeaderBack | src/App.tsx:60-70 | there is no header on the home screen; its back button goes home from the input screen and to the input from the results screen |
| AppView.App.Valid | src/App.tsx:14-17 | the invariant of the four state variables, kept by every handler: the results screen holds a forecast, no error is held on it, and a pending request has no error and is not on it |
| AppView.App.ShownResult | src/App.tsx:105 | under the invariant, a forecast is drawn exactly when the results screen is shown, and it is the one held |
| AppView.App.constructor | src/App.tsx:14-17 | home screen, not loading, no error, no forecast; both invariants hold |
| AppView.App.GetStarted | src/App.tsx:19-22 | moves to the input screen and clears the error |
| AppView.App.BeginSubmit | src/App.tsx:24-29 | posts exactly the data and step count, sets loading and clears the error, and leaves the screen as it is |
| AppView.App.CompleteSuccess | src/App.tsx:29-36 | stores the forecast, moves to the results screen and clears loading |
| AppView.App.CompleteFailure | src/App.tsx:32-36 | records the failure message, clears loading, and leaves screen and forecast unchanged; the error is on the input screen exactly when the request ends there |
| AppView.App.BackToHome | src/App.tsx:39-43 | moves home and clears error and forecast |
| AppView.App.BackToInput | src/App.tsx:45-48 | moves to the input screen, clears the error and keeps the forecast |
| AppView.App.Retry | src/App.tsx:50-55 | clears the error; the results screen becomes the input screen, and any other screen is unchanged |
| AppView.App.HeaderBackClick | src/App.tsx:65-70 | on the input screen it acts as BackToHome, on the results screen as BackToInput |
| AppView.SubmitForm | src/App.tsx:89-91 | a form submit posts exactly the form's validated data, with at least two points, and its step count, and starts loading while the screen and the held forecast stay as they were; with no data nothing changes |
| AppView.LeaveBeforeFailure | src/App.tsx:32-43 | going home while a request is pending and then seeing it fail leaves an error held on the home screen |
| ChartData.CombinedData | src/components/Chart.tsx:21-45 | the merged list has one entry per original point and then one per forecast point; entry i of the first part and entry n + j of the second carry index, timestamp and value in their own column, with null in the other |
| ChartData.CombinedUnique | src/components/Chart.tsx:21-45 | the merge has only one possible result |
| ChartData.CombinedIndexed | src/components/Chart.tsx:28-37 | every entry's index is its position, and each entry carries exactly one of the two values |
| ChartData.CombinedOrder | src/components/Chart.tsx:25-42 | exactly the first \|original\| entries carry an original value, so all original entries precede all forecast ones |
| ChartData.CountOriginal | src/components/Chart.tsx:115 | a counting helper for `CombinedCounts`: the number of merged entries carrying an original value, at most the length of the list |
| ChartData.CountPredicted | src/components/Chart.tsx:119 | a counting helper for `CombinedCounts`: the number of merged entries carrying a forecast value, at most the length of the list |
| ChartData.CombinedCounts | src/components/Chart.tsx:115-119 | the merged list holds exactly \|original\| original entries and \|predicted\| forecast entries, so the two lengths the chart displays (`originalData.length`, `predictedData.length`) are the counts of the plotted entries |

Every handler of both classes requires and ensures its class's `Valid()`. So
for `App`, in any sequence of handlers with submission only from the input
screen while nothing is pending:

- the results screen always holds a forecast;
- no error is held on the results screen;
- a pending request has no error and is not on the results screen.

For `DataInput`, in any sequence of handlers:

- the step count is at least one;
- an error means no data;
- any data held has passed the validator.

## Left out

- `src/services/api.ts`, the `fetch` client, is not part of this model. Its
  answer, or what it throws, is the argument of `CompleteSuccess` or
  `CompleteFailure`. Its choice of message (`errorData.message` or
  "HTTP error! status: N") is not modelled.
- PapaParse's tokenising, quoting, header transformation and empty-line
  skipping are the `papa` parameter. Its error objects are reduced to their
  messages.
- `parseFloat`, `parseInt`, `isNaN` and `isFinite` are abstract or exact over
  `Num`. Float rounding, and `parseInt` overflowing to `Infinity`, are not
  modelled.
- The messages of the catch clauses for a value that is not an `Error` are not
  modelled: "Unknown error" (`src/utils/dataParser.ts:38`, `:79`), and "Failed to
  parse CSV" and "Failed to parse text data"
  (`src/components/DataInput.tsx:40`, `:65`). Everything the parsers throw is an
  `Error`, so these are not reached.
- The chart's averages, `toFixed` formatting, tooltip and Recharts rendering
  are not modelled.
- `src/components/HomePage.tsx`, `Loader`, `ErrorMessage`, all JSX and styling
  are not part of this model. Only the render conditions that carry logic are
  modelled (`HeaderBack`, `ShownResult`, `IsDataValid`, the preview).
- `FileReader` asynchrony and read errors are not modelled. Two reads in
  flight at once, finishing in either order, are not modelled either. The
  `onload` callback is one method call with the text.
- React's batching of state updates is not modelled: each handler is one
  atomic update of the current state. The form's state is reset when the
  input screen unmounts; here the form is an object of its own.
- AppView.App.CompleteFailure: keeps the stronger reading, that an error is
  held only on the input screen, only when the request ends on the input
  screen. `LeaveBeforeFailure` shows the order of events that breaks it, so
  the invariant every handler keeps says only that no error is held on the
  results screen.
- DataInputForm.DataInput.IsDataValid: its contract relies on the invariant
  that an error means no data. It does not separately model an empty error
  string, which no parser or validator message can be.
