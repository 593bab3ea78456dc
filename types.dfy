/** The records exchanged between the parser, the form, the application and the
    forecasting service, and the two failure-compatible wrappers the model uses
    where the TypeScript code returns `null` or throws. */
module Types {

  datatype Option<+T> = None | Some(value: T)

  /** A thrown `Error` becomes `Failure(message)`. */
  datatype Result<+R, +E> = Success(value: R) | Failure(error: E)

  /** A JavaScript `number` as far as the front-end cares: a finite real, one of
      the two infinities, or NaN. Float rounding is not modelled. */
  datatype Num = Finite(r: real) | Infinity(negative: bool) | NaN

  /** `isNaN(x)` */
  predicate IsNaN(x: Num) { x.NaN? }

  /** `isFinite(x)`: neither NaN nor an infinity. */
  predicate IsFinite(x: Num) { x.Finite? }

  /** `TimeSeriesData`: one observation; the timestamp is an opaque label. */
  datatype TimeSeriesData = TimeSeriesData(timestamp: string, value: Num)

  /** `PredictionRequest`: the body posted to the forecasting service; `steps` is optional. */
  datatype PredictionRequest = PredictionRequest(data: seq<TimeSeriesData>, steps: Option<int>)

  /** `PredictionResponse`: what the forecasting service answers, taken verbatim. */
  datatype PredictionResponse = PredictionResponse(
    original: seq<TimeSeriesData>,
    predicted: seq<TimeSeriesData>,
    success: bool,
    message: Option<string>)
}
