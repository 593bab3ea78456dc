/** The view controller of `src/App.tsx`: which of the three screens is shown,
    whether a forecast request is pending, the error to show and the forecast
    received. The asynchronous submit is two steps: `BeginSubmit`, which hands
    the request to the forecasting service, and later `CompleteSuccess` or
    `CompleteFailure` with what the service gave back. The other handlers can
    run while a request is pending. */
module AppView {
  import opened Types
  import DataInputForm

  datatype AppState = Home | Input | Results

  /** What the header's back button does. */
  datatype BackAction = BackToHomeAction | BackToInputAction

  /** The message recorded when something other than an `Error` is thrown. */
  const UnexpectedError: string := "An unexpected error occurred"

  /** What a failed request records: the `Error`'s message when one was thrown
      (`Some(message)`), the fixed text for anything else (`None`). */
  function FailureMessage(thrown: Option<string>): (m: string)
    ensures thrown.Some? ==> m == thrown.value
    ensures thrown.None? ==> m == "An unexpected error occurred"
  {
    match thrown
    case Some(message) => message
    case None => UnexpectedError
  }

  /** The header: absent on the home screen; its back button goes home from the
      input screen and back to the input from the results screen. */
  function HeaderBack(state: AppState): (a: Option<BackAction>)
    ensures a.None? <==> state == Home
    ensures a.Some? ==> (a.value == BackToHomeAction <==> state == Input)
  {
    if state == Home then None
    else if state == Input then Some(BackToHomeAction)
    else Some(BackToInputAction)
  }

  class App {
    var currentState: AppState
    var isLoading: bool
    var error: Option<string>
    var predictionResult: Option<PredictionResponse>

    /** Kept by every handler, whatever the order: the results screen always
        has a forecast to draw, no error is shown over the results, and while
        a request is pending there is no error and the results screen is not
        shown. */
    ghost predicate Valid()
      reads this
    {
      && (currentState == Results ==> predictionResult.Some?)
      && (error.Some? ==> currentState != Results)
      && (isLoading ==> currentState != Results && error.None?)
    }

    /** The stronger reading: an error is held only on the input screen,
        where it is rendered. */
    predicate ErrorOnlyInInput()
      reads this
    {
      error.Some? ==> currentState == Input
    }

    /** The forecast the results screen draws, if it is shown. */
    function ShownResult(): (r: Option<PredictionResponse>)
      reads this
      requires Valid()
      ensures r.Some? <==> currentState == Results
      ensures r.Some? ==> Some(r.value) == predictionResult
    {
      if currentState == Results && predictionResult.Some? then predictionResult else None
    }

    constructor ()
      ensures Valid() && ErrorOnlyInInput()
      ensures currentState == Home && !isLoading
      ensures error == None && predictionResult == None
    {
      currentState := Home;
      isLoading := false;
      error := None;
      predictionResult := None;
    }

    /** `handleGetStarted` */
    method GetStarted()
      modifies this
      requires Valid()
      ensures Valid() && ErrorOnlyInInput()
      ensures currentState == Input && error == None
      ensures isLoading == old(isLoading) && predictionResult == old(predictionResult)
    {
      currentState := Input;
      error := None;
    }

    /** The synchronous start of `handleDataSubmit`: the request it posts.
        Submission comes from the input screen's button, which is disabled
        while a request is pending. */
    method BeginSubmit(data: seq<TimeSeriesData>, steps: int) returns (request: PredictionRequest)
      modifies this
      requires Valid() && currentState == Input && !isLoading
      ensures Valid() && ErrorOnlyInInput()
      ensures request == PredictionRequest(data, Some(steps))
      ensures isLoading && error == None
      ensures currentState == old(currentState) && predictionResult == old(predictionResult)
    {
      isLoading := true;
      error := None;
      request := PredictionRequest(data, Some(steps));
    }

    /** The rest of `handleDataSubmit` when the service answers. */
    method CompleteSuccess(result: PredictionResponse)
      modifies this
      requires Valid() && isLoading
      ensures Valid() && ErrorOnlyInInput()
      ensures currentState == Results && predictionResult == Some(result)
      ensures !isLoading && error == None
    {
      predictionResult := Some(result);
      currentState := Results;
      isLoading := false;
    }

    /** The rest of `handleDataSubmit` when the request throws. The screen is
        left as it is, so the error is shown only if the user is still on the
        input screen. */
    method CompleteFailure(thrown: Option<string>)
      modifies this
      requires Valid() && isLoading
      ensures Valid()
      ensures old(currentState) == Input ==> ErrorOnlyInInput()
      ensures error == Some(FailureMessage(thrown)) && !isLoading
      ensures currentState == old(currentState) && predictionResult == old(predictionResult)
    {
      error := Some(FailureMessage(thrown));
      isLoading := false;
    }

    /** `handleBackToHome` */
    method BackToHome()
      modifies this
      requires Valid()
      ensures Valid() && ErrorOnlyInInput()
      ensures currentState == Home && error == None && predictionResult == None
      ensures isLoading == old(isLoading)
    {
      currentState := Home;
      error := None;
      predictionResult := None;
    }

    /** `handleBackToInput` */
    method BackToInput()
      modifies this
      requires Valid()
      ensures Valid() && ErrorOnlyInInput()
      ensures currentState == Input && error == None
      ensures predictionResult == old(predictionResult) && isLoading == old(isLoading)
    {
      currentState := Input;
      error := None;
    }

    /** `handleRetry` */
    method Retry()
      modifies this
      requires Valid()
      ensures Valid() && ErrorOnlyInInput()
      ensures error == None
      ensures currentState == (if old(currentState) == Results then Input else old(currentState))
      ensures predictionResult == old(predictionResult) && isLoading == old(isLoading)
    {
      error := None;
      if currentState == Results {
        currentState := Input;
      }
    }

    /** The header's back button, present on every screen but the home screen. */
    method HeaderBackClick()
      modifies this
      requires Valid() && currentState != Home
      ensures Valid() && ErrorOnlyInInput()
      ensures old(currentState) == Input ==> currentState == Home && predictionResult == None
      ensures old(currentState) == Results ==>
                currentState == Input && predictionResult == old(predictionResult)
      ensures error == None && isLoading == old(isLoading)
    {
      match HeaderBack(currentState)
      case Some(BackToHomeAction) => BackToHome();
      case Some(BackToInputAction) => BackToInput();
    }
  }

  /** The input screen's submit button wired to `handleDataSubmit`: when the
      form holds data, exactly that data and step count are posted, and the
      request is pending; otherwise nothing happens. */
  method SubmitForm(form: DataInputForm.DataInput, app: App) returns (request: Option<PredictionRequest>)
    modifies app
    requires form.Valid() && app.Valid() && app.currentState == Input && !app.isLoading
    ensures app.Valid()
    ensures request.Some? <==> form.parsedData != []
    ensures request.Some? ==>
              && request.value == PredictionRequest(form.parsedData, Some(form.predictionSteps))
              && |request.value.data| >= 2 && form.predictionSteps >= 1
              && app.isLoading && app.error == None
              && app.currentState == old(app.currentState)
              && app.predictionResult == old(app.predictionResult)
    ensures request.None? ==>
              && app.currentState == old(app.currentState) && app.isLoading == old(app.isLoading)
              && app.error == old(app.error) && app.predictionResult == old(app.predictionResult)
  {
    var sent := form.Submit();
    if sent.Some? {
      var posted := app.BeginSubmit(sent.value.0, sent.value.1);
      request := Some(posted);
    } else {
      request := None;
    }
  }

  /** Leaving the input screen while a request is pending and then seeing it
      fail leaves an error held on the home screen: the error-only-on-input
      reading is not kept by every order of events. */
  method LeaveBeforeFailure(data: seq<TimeSeriesData>, steps: int) returns (app: App)
    ensures app.Valid()
    ensures app.currentState == Home && app.error == Some(UnexpectedError)
    ensures !app.ErrorOnlyInInput()
  {
    app := new App();
    app.GetStarted();
    var request := app.BeginSubmit(data, steps);
    app.BackToHome();
    app.CompleteFailure(None);
  }
}
