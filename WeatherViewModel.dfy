/**
 * `WeatherViewModel`: the published fields `weatherData`, `isLoading`, `errorMessage`,
 * `hasError`, and the steps that change them.
 *
 * `loadWeatherData` sets the loading state at once and launches a task; the task's end
 * (success assignment or `handleError`) is a separate step, `Finish`, that may come at any
 * later point, after any other steps, including other loads. That is how the missing
 * in-flight guard shows up here without modelling concurrency.
 */
module WeatherPresentation {
  import opened Wrappers
  import opened WeatherModels
  import opened Networking

  /** The message `handleError` shows: a `NetworkError`'s description, otherwise the "data_error" text. */
  function ErrorMessageFor(error: SwiftError, system: StringTable, app: StringTable): (m: Option<string>)
    ensures m.Some?
    ensures error.Net? ==> m == ErrorDescription(error.error, system)
    ensures !error.Net? ==> m == Some(app("data_error"))
  {
    match error
    case Net(e) => ErrorDescription(e, system)
    case _ => Some(app("data_error"))
  }

  /** The published fields of the view model, and what each step does to them. */
  datatype ViewState = ViewState(
    weatherData: Option<WeatherResult>,
    isLoading: bool,
    errorMessage: Option<string>,
    hasError: bool)
  {
    /** The flag agrees with the message, and no error is shown while loading. */
    predicate Consistent() {
      (hasError <==> errorMessage.Some?) && !(isLoading && hasError)
    }

    /** The synchronous part of `loadWeatherData` (and so of `refreshWeatherData`). */
    function BeginLoad(): (t: ViewState)
      ensures t.isLoading && !t.hasError && t.errorMessage.None?
      ensures t.weatherData == weatherData
    {
      this.(isLoading := true, hasError := false, errorMessage := None)
    }

    /** `handleError`: the data is kept. */
    function HandleError(error: SwiftError, system: StringTable, app: StringTable): (t: ViewState)
      ensures !t.isLoading && t.hasError
      ensures t.errorMessage == ErrorMessageFor(error, system, app)
      ensures t.weatherData == weatherData
    {
      this.(isLoading := false, hasError := true, errorMessage := ErrorMessageFor(error, system, app))
    }

    /** The end of the task `loadWeatherData` launched, once the fetch has returned or thrown. */
    function FinishLoad(outcome: AsyncOutcome, system: StringTable, app: StringTable): (t: ViewState)
      ensures outcome.Returned? ==>
        t.weatherData == Some(outcome.result) && !t.isLoading &&
        t.hasError == hasError && t.errorMessage == errorMessage
      ensures outcome.Threw? ==> t == HandleError(outcome.error, system, app)
    {
      match outcome
      case Returned(result) => this.(weatherData := Some(result), isLoading := false)
      case Threw(error) => HandleError(error, system, app)
    }

    /** `clearError`: no new fetch, loading flag and data kept. */
    function ClearError(): (t: ViewState)
      ensures !t.hasError && t.errorMessage.None?
      ensures t.isLoading == isLoading && t.weatherData == weatherData
    {
      this.(hasError := false, errorMessage := None)
    }

    /** `formattedDate`: "" without data, a formatted date for a numeric `dateTime`, else `dateTime` itself. */
    function FormattedDate(parseNumber: string -> Option<real>, formatDate: real -> string): (r: string)
      ensures weatherData.None? ==> r == ""
      ensures weatherData.Some? && parseNumber(weatherData.value.dateTime).None? ==> r == weatherData.value.dateTime
      ensures weatherData.Some? && parseNumber(weatherData.value.dateTime).Some? ==>
        r == formatDate(parseNumber(weatherData.value.dateTime).value)
    {
      match weatherData
      case None => ""
      case Some(w) =>
        match parseNumber(w.dateTime)
        case Some(timestamp) => formatDate(timestamp)
        case None => w.dateTime
    }
  }

  /** The fields' initial values, before `init` runs. */
  const Unset := ViewState(None, false, None, false)

  // ---------------------------------------------------------------------------
  // Any interleaving of steps
  // ---------------------------------------------------------------------------

  datatype Step = Load | Finish(outcome: AsyncOutcome) | Clear

  function Apply(s: ViewState, step: Step, system: StringTable, app: StringTable): ViewState {
    match step
    case Load => s.BeginLoad()
    case Finish(outcome) => s.FinishLoad(outcome, system, app)
    case Clear => s.ClearError()
  }

  function Run(s: ViewState, steps: seq<Step>, system: StringTable, app: StringTable): ViewState
    decreases |steps|
  {
    if steps == [] then s else Run(Apply(s, steps[0], system, app), steps[1..], system, app)
  }

  /** Every single step keeps the view state consistent. */
  lemma StepKeepsConsistent(s: ViewState, step: Step, system: StringTable, app: StringTable)
    requires s.Consistent()
    ensures Apply(s, step, system, app).Consistent()
  {
  }

  /** Over any sequence of loads, completions and `clearError` calls, the state stays consistent. */
  lemma {:induction false} RunKeepsConsistent(s: ViewState, steps: seq<Step>, system: StringTable, app: StringTable)
    requires s.Consistent()
    ensures Run(s, steps, system, app).Consistent()
    decreases |steps|
  {
    if steps != [] {
      StepKeepsConsistent(s, steps[0], system, app);
      RunKeepsConsistent(Apply(s, steps[0], system, app), steps[1..], system, app);
    }
  }

  /** Once data has arrived, no sequence of steps removes it: errors sit beside stale data. */
  lemma {:induction false} DataIsNeverCleared(s: ViewState, steps: seq<Step>, system: StringTable, app: StringTable)
    requires s.weatherData.Some?
    ensures Run(s, steps, system, app).weatherData.Some?
    decreases |steps|
  {
    if steps != [] {
      DataIsNeverCleared(Apply(s, steps[0], system, app), steps[1..], system, app);
    }
  }

  /** A fresh view model is loading, with no error and no data. */
  lemma InitStartsLoading()
    ensures Unset.BeginLoad() == ViewState(None, true, None, false)
    ensures Unset.BeginLoad().Consistent()
  {
  }

  /** A second load while one is in flight is not refused: it starts over, and both completions land. */
  lemma {:induction false} OverlappingLoads(
    s: ViewState, first: WeatherResult, second: WeatherResult, error: SwiftError, system: StringTable, app: StringTable)
    ensures Run(s, [Load, Load, Finish(Returned(first)), Finish(Returned(second))], system, app).weatherData
         == Some(second)
    ensures
      var t := Run(s, [Load, Load, Finish(Threw(error)), Finish(Returned(second))], system, app);
      t.weatherData == Some(second) && t.hasError && !t.isLoading
  {
    var ok := [Load, Load, Finish(Returned(first)), Finish(Returned(second))];
    var mixed := [Load, Load, Finish(Threw(error)), Finish(Returned(second))];
    var loading := s.BeginLoad().BeginLoad();
    RunTwoLoads(s, ok[2..], system, app);
    RunTwoLoads(s, mixed[2..], system, app);
    assert ok == [Load, Load] + ok[2..];
    assert mixed == [Load, Load] + mixed[2..];
    var afterFirst := loading.FinishLoad(Returned(first), system, app);
    assert Run(loading, ok[2..], system, app) == Run(afterFirst, [Finish(Returned(second))], system, app);
    var afterError := loading.FinishLoad(Threw(error), system, app);
    assert Run(loading, mixed[2..], system, app) == Run(afterError, [Finish(Returned(second))], system, app);
  }

  /** Two loads in a row, then the rest of the steps. */
  lemma RunTwoLoads(s: ViewState, rest: seq<Step>, system: StringTable, app: StringTable)
    ensures Run(s, [Load, Load] + rest, system, app) == Run(s.BeginLoad().BeginLoad(), rest, system, app)
  {
  }

  /** A payload with `status == false` shows the server's message, though the async fetch wrapped it in `unknown`. */
  lemma ApiErrorShowsServerMessage(
    s: ViewState, data: Data, decode: Decoder, system: StringTable, app: StringTable)
    requires decode(data).Success? && !decode(data).value.response.status
    ensures
      var t := s.FinishLoad(FetchAsync(true, Delivered(data, HttpResponse(200)), decode), system, app);
      t.hasError && t.errorMessage == Some(decode(data).value.response.message)
  {
    var message := decode(data).value.response.message;
    assert ErrorDescription(Unknown(Net(ApiError(message))), system) == Some(message);
  }

  /** A transport fault is not a `NetworkError` when it reaches the view model: it shows the "data_error" text. */
  lemma TransportFaultShowsDataError(
    s: ViewState, description: string, decode: Decoder, system: StringTable, app: StringTable)
    ensures
      var t := s.FinishLoad(FetchAsync(true, TransportFault(description), decode), system, app);
      t.hasError && t.errorMessage == Some(app("data_error"))
  {
  }

  // ---------------------------------------------------------------------------
  // The class
  // ---------------------------------------------------------------------------

  class WeatherViewModel {
    var weatherData: Option<WeatherResult>
    var isLoading: bool
    var errorMessage: Option<string>
    var hasError: bool

    function State(): ViewState
      reads this
    {
      ViewState(weatherData, isLoading, errorMessage, hasError)
    }

    /** `init` calls `loadWeatherData`. */
    constructor ()
      ensures State() == Unset.BeginLoad()
      ensures State().Consistent()
    {
      weatherData := None;
      isLoading := false;
      errorMessage := None;
      hasError := false;
      new;
      LoadWeatherData();
    }

    method LoadWeatherData()
      modifies this
      ensures State() == old(State()).BeginLoad()
    {
      isLoading := true;
      hasError := false;
      errorMessage := None;
    }

    /** Exactly `loadWeatherData`: nothing checks for a fetch already in flight. */
    method RefreshWeatherData()
      modifies this
      ensures State() == old(State()).BeginLoad()
    {
      LoadWeatherData();
    }

    /** The body of the task, run once the fetch has returned or thrown. */
    method FinishLoad(outcome: AsyncOutcome, system: StringTable, app: StringTable)
      modifies this
      ensures State() == old(State()).FinishLoad(outcome, system, app)
    {
      match outcome
      case Returned(result) =>
        weatherData := Some(result);
        isLoading := false;
      case Threw(error) =>
        HandleError(error, system, app);
    }

    method HandleError(error: SwiftError, system: StringTable, app: StringTable)
      modifies this
      ensures State() == old(State()).HandleError(error, system, app)
    {
      isLoading := false;
      hasError := true;
      if error.Net? {
        errorMessage := ErrorDescription(error.error, system);
      } else {
        errorMessage := Some(app("data_error"));
      }
    }

    method ClearError()
      modifies this
      ensures State() == old(State()).ClearError()
    {
      hasError := false;
      errorMessage := None;
    }

    function FormattedDate(parseNumber: string -> Option<real>, formatDate: real -> string): (r: string)
      reads this
    {
      State().FormattedDate(parseNumber, formatDate)
    }

    function HasWeatherData(): (r: bool)
      reads this
      ensures r <==> weatherData.Some?
    {
      weatherData.Some?
    }
  }
}
