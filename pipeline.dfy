/**
 * `DataAnalysisAndVisualization`: the pipeline orchestrator. One run of
 * `loadData` resolves the loader by name on the global object, awaits it,
 * checks that there are exactly three children (validator, analyzer,
 * visualizer), passes the raw data through the validator's `validateData`
 * and the result through the analyzer's `analyzeAndVisualizeData`, and stores
 * the analyzer's output. Every exception ends in one generic user message;
 * `loading` is cleared on every path. The render shows a spinner while
 * loading, then an error, then the visualizer or an arity alert.
 *
 * The loader's settled promise, the global object and the stage functions
 * are parameters: a stage is an arbitrary function from a value to a value or
 * a thrown exception.
 */
module DataAnalysisAndVisualization {
  import opened JsValue
  import NumericValidator

  const LoaderPropMessage := "The dataLoader prop must reference an existing asynchronous JavaScript function."
  const ArityMessage := "DataAnalysisAndVisualization component expects exactly three child components: Validator, Analyzer, and Visualizer."
  const PipelineMessage := "An error occurred during the data processing pipeline."
  const IncorrectChildrenMessage := "Incorrect number of child components."

  const LoaderNotFunction := TypeError("resolvedDataLoader is not a function")
  const ValidatorNotFunction := TypeError("Validator.type.validateData is not a function")
  const AnalyzerNotFunction := TypeError("Analyzer.type.analyzeAndVisualizeData is not a function")

  /** An awaited stage: resolves to a value or rejects with an exception. */
  type Stage = Value -> Result<Value>

  /**
   * A child element's component type, seen through the two static functions
   * the pipeline reads from it; `None` when the component does not define it.
   */
  datatype Component = Component(validateData: Option<Stage>, analyzeAndVisualizeData: Option<Stage>)

  /** The numeric validator: it defines `validateData` only. */
  const NumericValidatorComponent := Component(Some(NumericValidator.ValidateData), None)

  /** The parable analyzer: its only static is `analyzeData`, which the pipeline never reads. */
  const ParableAnalyzerComponent := Component(None, None)

  /** A visualizer (a plot component): no stage functions. */
  const VisualizerComponent := Component(None, None)

  /** A call the pipeline makes into code it was handed. */
  datatype Call = LoaderCall | ValidatorCall(input: Value) | AnalyzerCall(input: Value)

  /** What one pass through the `try` block does: the calls in order and how it ends. */
  datatype Run = Run(calls: seq<Call>, outcome: Result<Value>)

  /** `window[name]`: a missing global binding reads as `undefined`. */
  function Lookup(window: map<string, Value>, name: string): (v: Value)
    ensures name !in window ==> v == Undefined
    ensures name in window ==> v == window[name]
  {
    if name in window then window[name] else Undefined
  }

  /** The guard of `loadData`: `dataLoader` is a string naming a truthy global. */
  predicate NamesGlobal(dataLoader: Value, window: map<string, Value>)
    ensures NamesGlobal(dataLoader, window) <==>
      dataLoader.Str? && dataLoader.s in window && Truthy(window[dataLoader.s])
  {
    dataLoader.Str? && Truthy(Lookup(window, dataLoader.s))
  }

  /** The loader the pipeline calls: the guard holds and the global is callable. */
  predicate LoaderResolves(dataLoader: Value, window: map<string, Value>)
  {
    NamesGlobal(dataLoader, window) && Lookup(window, dataLoader.s).Fun?
  }

  /**
   * The body of the `try` block of `loadData` as a value: which calls happen
   * and what the block yields or throws. `fetched` is how the loader's
   * promise settles.
   */
  function RunPipeline(dataLoader: Value, window: map<string, Value>, fetched: Result<Value>, children: seq<Component>): (run: Run)
    ensures !NamesGlobal(dataLoader, window) ==> run == Run([], Err(Error(LoaderPropMessage)))
    ensures run.calls == [] <==> !LoaderResolves(dataLoader, window)
    ensures |run.calls| <= 3
    ensures |run.calls| >= 1 ==> run.calls[0] == LoaderCall
    ensures |run.calls| >= 2 ==>
      fetched.Ok? && |children| == 3 && children[0].validateData.Some? &&
      run.calls[1] == ValidatorCall(fetched.value)
    ensures NamesGlobal(dataLoader, window) && !LoaderResolves(dataLoader, window) ==>
      run == Run([], Err(LoaderNotFunction))
    ensures LoaderResolves(dataLoader, window) && fetched.Err? ==> run == Run([LoaderCall], Err(fetched.error))
    ensures LoaderResolves(dataLoader, window) && fetched.Ok? && |children| != 3 ==>
      run == Run([LoaderCall], Err(Error(ArityMessage)))
    ensures LoaderResolves(dataLoader, window) && fetched.Ok? && |children| == 3 && children[0].validateData.None? ==>
      run == Run([LoaderCall], Err(ValidatorNotFunction))
    ensures LoaderResolves(dataLoader, window) && fetched.Ok? && |children| == 3 && children[0].validateData.Some? ==>
      |run.calls| >= 2
    ensures |run.calls| >= 2 && children[0].validateData.value(fetched.value).Ok? && children[1].analyzeAndVisualizeData.Some? ==>
      |run.calls| == 3
    ensures |run.calls| == 2 ==>
      run.outcome == (if children[0].validateData.value(fetched.value).Err? then children[0].validateData.value(fetched.value)
                      else Err(AnalyzerNotFunction))
    ensures |run.calls| == 3 ==>
      children[0].validateData.value(fetched.value).Ok? &&
      children[1].analyzeAndVisualizeData.Some? &&
      run.calls[2] == AnalyzerCall(children[0].validateData.value(fetched.value).value) &&
      run.outcome == children[1].analyzeAndVisualizeData.value(run.calls[2].input)
    ensures |children| != 3 ==> |run.calls| <= 1 && run.outcome.Err?
    ensures run.outcome.Ok? ==> |run.calls| == 3
  {
    if !NamesGlobal(dataLoader, window) then Run([], Err(Error(LoaderPropMessage)))
    else
      var resolved := Lookup(window, dataLoader.s);
      if !resolved.Fun? then Run([], Err(LoaderNotFunction))
      else
        match fetched
        case Err(e) => Run([LoaderCall], Err(e))
        case Ok(rawData) =>
          if |children| != 3 then Run([LoaderCall], Err(Error(ArityMessage)))
          else
            match children[0].validateData
            case None => Run([LoaderCall], Err(ValidatorNotFunction))
            case Some(validate) =>
              match validate(rawData)
              case Err(e) => Run([LoaderCall, ValidatorCall(rawData)], Err(e))
              case Ok(validatedData) =>
                match children[1].analyzeAndVisualizeData
                case None => Run([LoaderCall, ValidatorCall(rawData)], Err(AnalyzerNotFunction))
                case Some(analyze) =>
                  Run([LoaderCall, ValidatorCall(rawData), AnalyzerCall(validatedData)], analyze(validatedData))
  }

  /** The component state, with the developer messages written by `console.error`. */
  datatype PipelineState = PipelineState(loading: bool, error: Value, data: Value, errorLog: seq<string>)

  /** `useState(true)`, `useState(null)`, `useState(null)`. */
  const Initial := PipelineState(true, Null, Null, [])

  /**
   * The state after `loadData` completes a run from `before`: the analyzer's
   * output on success, the generic message and the logged original message
   * on failure; `loading` is false either way.
   */
  function AfterRun(before: PipelineState, run: Run): (after: PipelineState)
    ensures !after.loading
    ensures run.outcome.Ok? ==>
      after.data == run.outcome.value && after.error == before.error && after.errorLog == before.errorLog
    ensures run.outcome.Err? ==>
      after.data == before.data && after.error == Str(PipelineMessage) &&
      after.errorLog == before.errorLog + [run.outcome.error.message]
  {
    match run.outcome
    case Ok(analyzedData) => before.(data := analyzedData, loading := false)
    case Err(e) => before.(error := Str(PipelineMessage), errorLog := before.errorLog + [e.message], loading := false)
  }

  /** What the component renders. */
  datatype Screen = Spinner | ErrorAlert(message: Value) | Visualize(data: Value) | ArityAlert(notice: string)

  /**
   * The render choice: the spinner while loading, else a truthy error, else
   * the third child with `data` when there are three children, else the
   * arity alert.
   */
  function Render(s: PipelineState, childCount: nat): (screen: Screen)
    ensures screen == Spinner <==> s.loading
    ensures screen.ErrorAlert? <==> !s.loading && Truthy(s.error)
    ensures screen.Visualize? <==> !s.loading && !Truthy(s.error) && childCount == 3
    ensures screen.ArityAlert? ==> screen.notice == IncorrectChildrenMessage
    ensures screen.ErrorAlert? ==> screen.message == s.error
    ensures screen.Visualize? ==> screen.data == s.data
  {
    if s.loading then Spinner
    else if Truthy(s.error) then ErrorAlert(s.error)
    else if childCount == 3 then Visualize(s.data)
    else ArityAlert(IncorrectChildrenMessage)
  }

  /** The stage function a child defines, or the TypeError of calling a missing one. */
  function Callable(f: Option<Stage>, missing: Exception): (r: Result<Stage>)
    ensures r.Ok? <==> f.Some?
    ensures r.Ok? ==> r.value == f.value
    ensures r.Err? ==> r.error == missing
  {
    match f
    case Some(g) => Ok(g)
    case None => Err(missing)
  }

  /** The component instance: the three state hooks, the console and the calls it made. */
  class Pipeline {
    var loading: bool
    var error: Value
    var data: Value
    var errorLog: seq<string>
    ghost var calls: seq<Call>

    function State(): PipelineState
      reads this
    {
      PipelineState(loading, error, data, errorLog)
    }

    constructor()
      ensures State() == Initial && calls == []
    {
      loading := true;
      error := Null;
      data := Null;
      errorLog := [];
      calls := [];
    }

    /** `displayError`: logs the developer message, shows the user message, stops loading. */
    method DisplayError(userErrorMessage: string, developerErrorMessage: string)
      modifies this
      ensures errorLog == old(errorLog) + [developerErrorMessage]
      ensures error == Str(userErrorMessage) && !loading
      ensures data == old(data) && calls == old(calls)
    {
      errorLog := errorLog + [developerErrorMessage];
      error := Str(userErrorMessage);
      loading := false;
    }

    /**
     * The `try` block: each step either throws, ending the block with that
     * exception, or leads to the next; `setData` runs only at the very end.
     */
    method TryLoad(dataLoader: Value, window: map<string, Value>, fetched: Result<Value>, children: seq<Component>)
      returns (r: Result<Value>)
      modifies this
      ensures r == RunPipeline(dataLoader, window, fetched, children).outcome
      ensures calls == old(calls) + RunPipeline(dataLoader, window, fetched, children).calls
      ensures data == (if r.Ok? then r.value else old(data))
      ensures loading == old(loading) && error == old(error) && errorLog == old(errorLog)
    {
      if !dataLoader.Str? || !Truthy(Lookup(window, dataLoader.s)) {
        return Err(Error(LoaderPropMessage));
      }
      var resolvedDataLoader := Lookup(window, dataLoader.s);
      if !resolvedDataLoader.Fun? {
        return Err(LoaderNotFunction);
      }
      calls := calls + [LoaderCall];
      var rawData :- fetched;
      if |children| != 3 {
        return Err(Error(ArityMessage));
      }
      var validator, analyzer := children[0], children[1];
      var validate :- Callable(validator.validateData, ValidatorNotFunction);
      calls := calls + [ValidatorCall(rawData)];
      var validatedData :- validate(rawData);
      var analyze :- Callable(analyzer.analyzeAndVisualizeData, AnalyzerNotFunction);
      calls := calls + [AnalyzerCall(validatedData)];
      var analyzedData :- analyze(validatedData);
      data := analyzedData;
      r := Ok(analyzedData);
    }

    /** `loadData`: the `try` block, the `catch` through `displayError`, and the `finally`. */
    method LoadData(dataLoader: Value, window: map<string, Value>, fetched: Result<Value>, children: seq<Component>)
      modifies this
      ensures State() == AfterRun(old(State()), RunPipeline(dataLoader, window, fetched, children))
      ensures calls == old(calls) + RunPipeline(dataLoader, window, fetched, children).calls
    {
      var r := TryLoad(dataLoader, window, fetched, children);
      if r.Err? {
        DisplayError(PipelineMessage, r.error.message);
      }
      loading := false;
    }
  }

  /**
   * A loader handed over as a function value rather than a global's name, as
   * both example applications do, ends every run in the pipeline error before
   * anything is called, whatever the children.
   */
  lemma FunctionLoaderAlwaysFails(loader: Value, window: map<string, Value>, fetched: Result<Value>,
                                  children: seq<Component>, before: PipelineState)
    requires loader.Fun?
    ensures RunPipeline(loader, window, fetched, children) == Run([], Err(Error(LoaderPropMessage)))
    ensures Render(AfterRun(before, RunPipeline(loader, window, fetched, children)), |children|)
      == ErrorAlert(Str(PipelineMessage))
  {
  }

  /**
   * With the parable analyzer in the analyzer slot no run reaches an analyzer
   * call or succeeds: the analyzer defines no `analyzeAndVisualizeData`.
   */
  lemma ParableAnalyzerNeverAnalyzes(dataLoader: Value, window: map<string, Value>, fetched: Result<Value>,
                                     validator: Component, visualizer: Component)
    ensures var run := RunPipeline(dataLoader, window, fetched, [validator, ParableAnalyzerComponent, visualizer]);
      run.outcome.Err? && forall i :: 0 <= i < |run.calls| ==> !run.calls[i].AnalyzerCall?
  {
  }

  /**
   * Non-numeric data behind the numeric validator: the loader and the
   * validator are called, the analyzer is not, the user sees the generic
   * message and the console gets the validator's message.
   */
  lemma NonNumericDataRejected(window: map<string, Value>, name: string, analyzer: Component, visualizer: Component)
    requires name in window && window[name].Fun?
    ensures var raw := Arr([Str("a"), Str("b")]);
      var run := RunPipeline(Str(name), window, Ok(raw), [NumericValidatorComponent, analyzer, visualizer]);
      && run == Run([LoaderCall, ValidatorCall(raw)], Err(Error(NumericValidator.NotNumericMessage)))
      && AfterRun(Initial, run) == PipelineState(false, Str(PipelineMessage), Null, [NumericValidator.NotNumericMessage])
  {
    NumericValidator.StringsRejected();
  }

  /** The child-count check comes after the loader call and stops the run before any stage. */
  lemma WrongChildCountStopsAfterLoader(dataLoader: Value, window: map<string, Value>, raw: Value, children: seq<Component>)
    requires LoaderResolves(dataLoader, window) && |children| != 3
    ensures RunPipeline(dataLoader, window, Ok(raw), children) == Run([LoaderCall], Err(Error(ArityMessage)))
  {
  }

  /** Once a run has completed the spinner is never shown again. */
  lemma NoSpinnerAfterRun(before: PipelineState, run: Run, childCount: nat)
    ensures Render(AfterRun(before, run), childCount) != Spinner
  {
  }

  /**
   * From the initial state a successful run shows the visualizer with
   * exactly the analyzer's output, and the arity alert cannot appear since a
   * successful run had three children.
   */
  lemma SuccessShowsAnalyzerOutput(dataLoader: Value, window: map<string, Value>, fetched: Result<Value>,
                                   children: seq<Component>)
    requires RunPipeline(dataLoader, window, fetched, children).outcome.Ok?
    ensures var run := RunPipeline(dataLoader, window, fetched, children);
      Render(AfterRun(Initial, run), |children|) == Visualize(run.outcome.value)
  {
  }

  /**
   * Neither `error` nor `data` is ever reset: a failed run keeps the data of
   * an earlier success, and a successful run keeps the error of an earlier
   * failure, which then hides the new data.
   */
  lemma StaleStateIsKept(before: PipelineState, run: Run, childCount: nat)
    requires Truthy(before.error)
    ensures run.outcome.Err? ==> AfterRun(before, run).data == before.data
    ensures run.outcome.Ok? ==> Render(AfterRun(before, run), childCount) == ErrorAlert(before.error)
  {
  }
}
