# Data analysis and visualization pipeline, modelled in Dafny

The repository is a small React library for "load, validate, analyse,
visualise" pipelines. This project models its stateful and computational
core:

- **Stages.** `NumericValidator.validateData` lets an array through unchanged
  when every element is a number and throws otherwise.
  `ParableAnalyzer.analyzeData` maps each value `v` to the point `{x: v, y: v²}`.
  `DensityAnalyzer.analyzeAndVisualizeData` guards its input, computes the
  mean and variance behind the Silverman bandwidth, and samples a kernel
  density estimate on the grid `minX, minX + step, …` up to `maxX`, where
  `step = (maxX - minX) / 100`. It aborts on the first NaN evaluation.
- **`DataAnalysisAndVisualization`**, the pipeline orchestrator. `loadData`
  resolves the loader by name on `window` and awaits it. It then checks for
  exactly three children and runs the validator's `validateData` and the
  analyzer's `analyzeAndVisualizeData`. Every exception funnels into one
  user message. `loading` is cleared in `finally`. The render picks a
  spinner, an error alert, the visualizer or an arity alert.
- **`DataAnalysisAndVisualizationComponent`**, a self-contained scatter-plot
  component. Its effect guards the loader, loads, checks that the data is an
  array of `{x, y}` points and stores it. Its three failure paths store three
  distinct messages. The render shows the error, else the points, else
  "Loading".

Layout:

| file | module | contents |
|---|---|---|
| `js_value.dfy` | `JsValue` | JavaScript values, `typeof`, truthiness, property reads, `every`, thrown exceptions as `Result`, squaring |
| `numeric_validator.dfy` | `NumericValidator` | the all-numbers gate |
| `parable_analyzer.dfy` | `ParableAnalyzer` | the `v ↦ {x: v, y: v²}` map |
| `density_analyzer.dfy` | `DensityAnalyzer` | mean, variance, min and max; the sampling loop as a method proved against a specification predicate |
| `point_component.dfy` | `DataAnalysisAndVisualizationComponent` | the point-shape check, the effect as a pure transition and as a class method, the render |
| `pipeline.dfy` | `DataAnalysisAndVisualization` | one pipeline run as a pure record of calls and outcome, the component class with `loading`/`error`/`data`, the render |

Modelling choices:

- Numbers are exact reals. NaN and the infinities are not values. The density
  stage represents a NaN evaluation as `None`.
- The kernel density estimate is an arbitrary partial function
  `est: real -> Option<real>`, used when the bandwidth is non-zero. The
  bandwidth `1.06 * sqrt(variance) * n^(-1/5)` is zero exactly when the
  variance is zero. With a zero bandwidth every evaluation is `0/0` or
  `Infinity * 0`, so it is NaN everywhere (`Kde`). These are statements
  about exact arithmetic: with IEEE doubles the computed variance of a
  constant series need not be zero (see "## Left out").
- The loader's settled promise (`fetched`), the global object (`window`, a
  map from names to values) and the stage functions of the children are
  parameters. A stage is any function from a value to a value or a thrown
  exception. `console.error` in the orchestrator is kept as an `errorLog`
  field.
- The scatter component's loader guard contains
  `!dataLoader.constructor.name === 'AsyncFunction'`. This compares a boolean
  with a string, so it never holds. It is modelled as written (`AsyncClause`),
  and only the `typeof` test decides.
- Neither orchestrator clears `error` or `data` when a run starts. Every
  transition is therefore stated from an arbitrary prior state, and the
  stale-state consequences are proved (`StaleStateIsKept`,
  `SuccessKeepsEarlierError`).
- The orchestrator reads the loader from `window[dataLoader]` and demands a
  string. Both example applications pass a function value, so their runs
  always end in the pipeline error (`FunctionLoaderAlwaysFails`). The
  example's `ParableAnalyzer` has no `analyzeAndVisualizeData`, so it can
  never serve as the analyzer (`ParableAnalyzerNeverAnalyzes`).

## Model

| member | source | states |
|---|---|---|
| JsValue.GetProp | src/DataAnalysisAndVisualizationComponent.jsx:68 | reading a property throws exactly on `null`/`undefined` (with the runtime's TypeError for `null`); a plain object yields its own field or `undefined` |
| JsValue.TypeOf | src/DataAnalysisAndVisualization.jsx:48 | `typeof` is 'number', 'string' and 'function' exactly for numbers, strings and functions, and 'object' exactly for `null`, arrays and plain objects |
| JsValue.Truthy | src/DataAnalysisAndVisualization.jsx:48 | `undefined` and `null` are falsy; arrays, objects and functions are truthy; a number is truthy iff non-zero, a string iff non-empty |
| JsValue.Every | src/NumericValidator.jsx:10 | `every` holds iff the callback holds on every element |
| JsValue.Square | src/ParableAnalyzer.jsx:10 | `v ** 2` is never negative and is zero exactly at zero |
| JsValue.SquareOfNegation | src/ParableAnalyzer.jsx:10 | `v` and `-v` have the same square |
| NumericValidator.IsNumber | src/NumericValidator.jsx:10 | `typeof item === 'number'` holds exactly for numbers |
| NumericValidator.ValidateData | src/NumericValidator.jsx:8-15 | success returns the input unchanged; on an array it succeeds iff every element is a number, else throws 'Validation failed: Data must be numeric.'; a non-array makes `data.every` throw a TypeError |
| NumericValidator.EmptyPasses | src/NumericValidator.jsx:10 | the empty array passes, vacuously |
| NumericValidator.Idempotent | src/NumericValidator.jsx:10-11 | validating a validated result succeeds again with the same value |
| NumericValidator.NumbersPass | src/UserInterface.jsx:15 | the first example loader's series passes unchanged |
| NumericValidator.StringsRejected | src/NumericValidator.jsx:12-13 | `["a", "b"]` is rejected with the validation message |
| ParableAnalyzer.AnalyzeData | src/ParableAnalyzer.jsx:8-11 | same length as the input, and point `i` is `{x: data[i], y: data[i] ** 2}`, in input order; total, no error path |
| ParableAnalyzer.YIsSquare | src/ParableAnalyzer.jsx:10 | every `y` equals `data[i]·data[i]` and is non-negative |
| ParableAnalyzer.SymmetricInput | src/ParableAnalyzer.jsx:10 | an input symmetric about zero yields equal `y` and opposite `x` at mirrored positions |
| ParableAnalyzer.ExampleSeries | src/App.jsx:15 | `[-3..3]` maps to the points with `y` = 9, 4, 1, 0, 1, 4, 9 |
| DensityAnalyzer.SumBounds | src/DensityAnalyzer.jsx:29 | the `reduce` sum of `n` values between `lo` and `hi` lies between `n·lo` and `n·hi` |
| DensityAnalyzer.Mean | src/DensityAnalyzer.jsx:29 | the mean `sum / n` of a non-empty series lies between its smallest and its largest value |
| DensityAnalyzer.Variance | src/DensityAnalyzer.jsx:30 | the population variance (the mean of the squared deviations) is never negative |
| DensityAnalyzer.Kde | src/DensityAnalyzer.jsx:41-66 | with zero variance (hence zero bandwidth) the density is NaN at every point; otherwise it is the estimate `est` at every point |
| DensityAnalyzer.SumSquaredDeviations | src/DensityAnalyzer.jsx:30 | the sum of squared deviations is never negative |
| DensityAnalyzer.SumOfConstant | src/DensityAnalyzer.jsx:29 | the sum of `n` copies of `c` is `n·c` |
| DensityAnalyzer.SumSquaredDeviationsZero | src/DensityAnalyzer.jsx:30 | the squared deviations sum to zero iff every value equals the mean |
| DensityAnalyzer.VarianceZeroIffConstant | src/DensityAnalyzer.jsx:29-30 | the variance is non-negative, and zero iff the series is constant |
| DensityAnalyzer.CalculateVariance | src/DensityAnalyzer.jsx:23-32 | throws 'Cannot calculate standard deviation of an empty array.' exactly on the empty array; otherwise the variance, non-negative and zero exactly for a constant series |
| DensityAnalyzer.Min | src/DensityAnalyzer.jsx:69 | `Math.min` returns an element that is at most every element |
| DensityAnalyzer.Max | src/DensityAnalyzer.jsx:70 | `Math.max` returns an element that is at least every element |
| DensityAnalyzer.Step | src/DensityAnalyzer.jsx:71 | the step is a hundredth of the range `maxX - minX` |
| DensityAnalyzer.GridNext | src/DensityAnalyzer.jsx:74 | each `x += step` moves to the next grid point |
| DensityAnalyzer.GridMonotone | src/DensityAnalyzer.jsx:74 | with a non-negative step, later grid points are not smaller |
| DensityAnalyzer.GridStrictlyIncreasing | src/DensityAnalyzer.jsx:74 | with a positive step, later grid points are strictly larger |
| DensityAnalyzer.GridBound | src/DensityAnalyzer.jsx:71-74 | in exact arithmetic, with `step = (maxX - minX)/100 > 0`, only the grid indices 0..100 stay within `maxX` |
| DensityAnalyzer.EqualBoundsIsNaN | src/DensityAnalyzer.jsx:62-71 | in exact arithmetic `minX == maxX` means a constant series, zero variance and zero bandwidth, so every evaluation is NaN |
| DensityAnalyzer.SampleDensity | src/DensityAnalyzer.jsx:72-82 | the loop succeeds iff no grid point up to `maxX` evaluates to NaN; it then returns every grid point from `minX` up to `maxX` paired with its density, in visiting order, and otherwise throws 'Numerical error during density estimation.' with no partial result |
| DensityAnalyzer.AnalyzeAndVisualizeData | src/DensityAnalyzer.jsx:54-87 | a non-array or empty input throws 'Invalid input data. Expected a non-empty array.'; otherwise it succeeds iff no grid point up to `maxX` evaluates to NaN, returns then every grid point from `minX` up to `maxX` paired with its density, in visiting order, and otherwise throws 'Numerical error during density estimation.' with no partial result |
| DensityAnalyzer.ConstantInputFails | src/DensityAnalyzer.jsx:62-78 | in exact arithmetic a constant series ends in the numerical error at the first evaluation |
| DensityAnalyzer.SampledGridNeedsPositiveStep | src/DensityAnalyzer.jsx:71-74 | a completed sampling ended past `maxX`, so `minX < maxX` and the step is positive |
| DensityAnalyzer.SuccessNeedsPositiveStep | src/DensityAnalyzer.jsx:71-78 | a successful sampling had `minX < maxX`: constant series never succeed |
| DensityAnalyzer.SampledGridShape | src/DensityAnalyzer.jsx:69-75 | the sampled `x` values start at `minX`, advance by exactly `step`, strictly increase and never exceed `maxX` |
| DataAnalysisAndVisualizationComponent.ItemRejected | src/DataAnalysisAndVisualizationComponent.jsx:68 | the loop test rejects exactly the non-points and throws exactly on `null` (the TypeError of `null.x`) |
| DataAnalysisAndVisualizationComponent.AllPointsCons | src/DataAnalysisAndVisualizationComponent.jsx:67-71 | all items are points iff the first is and all the rest are |
| DataAnalysisAndVisualizationComponent.NullIsFirstNonPointCons | src/DataAnalysisAndVisualizationComponent.jsx:67-71 | the loop reaches a `null` iff the first item is `null`, or it is a point and the loop over the rest reaches a `null` |
| DataAnalysisAndVisualizationComponent.CheckItems | src/DataAnalysisAndVisualizationComponent.jsx:67-73 | the loop yields true iff every item is a point, and throws iff the first non-point item is `null` |
| DataAnalysisAndVisualizationComponent.ValidateData | src/DataAnalysisAndVisualizationComponent.jsx:62-74 | false for any non-array; on an array true iff every item is an object with `x` and `y` defined (the empty array is valid); throws iff the first non-point is `null` |
| DataAnalysisAndVisualizationComponent.AnalyzeAndVisualizeData | src/DataAnalysisAndVisualizationComponent.jsx:77-81 | the analysis is the identity |
| DataAnalysisAndVisualizationComponent.AsyncClause | src/DataAnalysisAndVisualizationComponent.jsx:32 | `!dataLoader.constructor.name === 'AsyncFunction'` never holds |
| DataAnalysisAndVisualizationComponent.ValidateAndVisualize | src/DataAnalysisAndVisualizationComponent.jsx:40-49 | rejects exactly when validation throws; valid data is stored with the error untouched; invalid data clears the data and sets 'Data validation failed' |
| DataAnalysisAndVisualizationComponent.EffectOutcome | src/DataAnalysisAndVisualizationComponent.jsx:30-59 | a non-function loader gives (null, 'Validation Failed 2'); a rejected load gives (null, 'Error loading data'); a non-array gives (null, 'Data validation failed'); an array of points becomes `fdata` with the earlier error kept; a `null` reached first gives (null, 'Error loading data'); any other non-point gives (null, 'Data validation failed') |
| DataAnalysisAndVisualizationComponent.Render | src/DataAnalysisAndVisualizationComponent.jsx:93-115 | a truthy error is shown first, else truthy data as the scatter plot, else the loading notice |
| DataAnalysisAndVisualizationComponent.Component.constructor | src/DataAnalysisAndVisualizationComponent.jsx:27-28 | both state hooks start as `null`, no loader called |
| DataAnalysisAndVisualizationComponent.Component.Effect | src/DataAnalysisAndVisualizationComponent.jsx:30-59 | the new `(fdata, error)` is `EffectOutcome` of the old one; the loader is called once exactly when it is a function |
| DataAnalysisAndVisualizationComponent.ExampleWithMissingYRejected | src/App.js:8-14 | the example data whose fourth item has `z` instead of `y` ends in (null, 'Data validation failed') |
| DataAnalysisAndVisualizationComponent.NullItemIsLoadError | src/DataAnalysisAndVisualizationComponent.jsx:52-58 | a `null` item throws inside the `.then` and ends in (null, 'Error loading data') |
| DataAnalysisAndVisualizationComponent.NeverLoadingAfterEffect | src/DataAnalysisAndVisualizationComponent.jsx:95-113 | after one run of the effect the loading notice is never rendered |
| DataAnalysisAndVisualizationComponent.SuccessKeepsEarlierError | src/DataAnalysisAndVisualizationComponent.jsx:41-43 | a successful load keeps an earlier error, which still hides the new points |
| DataAnalysisAndVisualizationComponent.SuccessFromInitialShowsPoints | src/DataAnalysisAndVisualizationComponent.jsx:41-43 | from the initial state a successful load renders exactly the loaded points |
| DataAnalysisAndVisualization.Lookup | src/DataAnalysisAndVisualization.jsx:48 | `window[name]` is the global binding, or `undefined` when there is none |
| DataAnalysisAndVisualization.NamesGlobal | src/DataAnalysisAndVisualization.jsx:48 | the guard passes iff `dataLoader` is a string bound on `window` to a truthy value |
| DataAnalysisAndVisualization.RunPipeline | src/DataAnalysisAndVisualization.jsx:46-104 | a non-string or unbound name throws the loader message with no calls; no call happens iff the loader does not resolve to a function; calls are a prefix of loader, validator on the raw data, analyzer on the validator's output; the exception of every failed run: the loader TypeError for a non-callable global, the loader's own rejection, the arity error for a child count other than 3 (after the loader call only), the missing-validator TypeError, the validator's own exception, and the missing-analyzer TypeError; the run succeeds iff every stage succeeds: a resolving loader with a settled value, three children and a `validateData` always leads to the validator call, a successful validation with an `analyzeAndVisualizeData` present always leads to the analyzer call, and success means all three calls happened and the outcome is the analyzer's output |
| DataAnalysisAndVisualization.AfterRun | src/DataAnalysisAndVisualization.jsx:103-109 | after a run `loading` is false; success stores the analyzer output and leaves error and log alone; failure leaves `data`, sets 'An error occurred during the data processing pipeline.' and logs the original message |
| DataAnalysisAndVisualization.Render | src/DataAnalysisAndVisualization.jsx:115-146 | spinner iff loading; else the error alert iff the error is truthy; else the visualizer with `data` iff there are three children; else 'Incorrect number of child components.' |
| DataAnalysisAndVisualization.Callable | src/DataAnalysisAndVisualization.jsx:94-101 | a child's missing static function becomes the TypeError of calling it |
| DataAnalysisAndVisualization.Pipeline.constructor | src/DataAnalysisAndVisualization.jsx:25-27 | initial state: loading, no error, no data |
| DataAnalysisAndVisualization.Pipeline.DisplayError | src/DataAnalysisAndVisualization.jsx:36-40 | logs the developer message, sets the user message, clears `loading`, leaves `data` |
| DataAnalysisAndVisualization.Pipeline.TryLoad | src/DataAnalysisAndVisualization.jsx:46-104 | the `try` block throws or returns exactly `RunPipeline`'s outcome, makes exactly its calls, and assigns `data` only on success |
| DataAnalysisAndVisualization.Pipeline.LoadData | src/DataAnalysisAndVisualization.jsx:45-110 | the new state is `AfterRun` of the old state and the run |
| DataAnalysisAndVisualization.FunctionLoaderAlwaysFails | src/DataAnalysisAndVisualization.jsx:48-49 | a function-valued `dataLoader` (as in src/App.jsx:19 and src/UserInterface.jsx:63) errors before any call and renders the pipeline error |
| DataAnalysisAndVisualization.ParableAnalyzerNeverAnalyzes | src/DataAnalysisAndVisualization.jsx:101 | with the parable analyzer in the analyzer slot no analyzer call happens and every run fails |
| DataAnalysisAndVisualization.NonNumericDataRejected | src/DataAnalysisAndVisualization.jsx:94-106 | `["a", "b"]` through the numeric validator: loader and validator called, analyzer not, generic message shown, validator message logged, data still null |
| DataAnalysisAndVisualization.WrongChildCountStopsAfterLoader | src/DataAnalysisAndVisualization.jsx:81-86 | with a resolving loader and a child count other than 3, the loader is the only call and the arity error is thrown |
| DataAnalysisAndVisualization.NoSpinnerAfterRun | src/DataAnalysisAndVisualization.jsx:107-109 | after any completed run the spinner is not rendered |
| DataAnalysisAndVisualization.SuccessShowsAnalyzerOutput | src/DataAnalysisAndVisualization.jsx:101-104 | from the initial state a successful run renders the visualizer with exactly the analyzer's output |
| DataAnalysisAndVisualization.StaleStateIsKept | src/DataAnalysisAndVisualization.jsx:104-106 | with an earlier error, a failed run keeps the earlier data and a successful run still renders the earlier error |

## Left out

- `isAsyncFunction` (src/DataAnalysisAndVisualization.jsx:182-209) is runtime reflection on function source text and is not modelled; neither is the commented-out asynchrony check it was meant for.
- The Gaussian kernel, `Math.exp`, `Math.sqrt`, `Math.pow(n, -0.2)` and the Silverman bandwidth value are floating point; the density estimate is the abstract `est`.
- DensityAnalyzer.CalculateVariance: stops before the final `Math.sqrt`; it returns the variance, whose zero set equals that of the standard deviation.
- DensityAnalyzer.AnalyzeAndVisualizeData, DensityAnalyzer.ConstantInputFails, DensityAnalyzer.GridBound: termination holds only in exact reals. With IEEE doubles the loop at src/DensityAnalyzer.jsx:74 can run forever: for `[0.1, 0.1, 0.1]` the computed mean is `0.10000000000000002`, the variance a tiny positive number, the density at `minX` finite and `step` zero; for `[1e17, 1e17 + 16]` `step` is `0.16` and `x + step == x`. The model promises nothing about these inputs (`SampleDensity` excludes a zero step with a finite first evaluation).
- DensityAnalyzer.AnalyzeAndVisualizeData: works in exact reals, so it makes no claim about the exact number of points; IEEE accumulation of `x += step` decides whether `maxX` itself is visited.
- DensityAnalyzer.AnalyzeAndVisualizeData: requires an array input to hold only numbers (the documented `Array<number>`); coercion of other elements by `+`, `Math.min` and `Math.max` is not modelled.
- The `console.error` in the density stage's `catch` is not modelled; the rethrow of the unchanged error is.
- The density stage is not plugged into the orchestrator as a concrete child: there an analyzer is any stage function.
- ParableAnalyzer.AnalyzeData: takes a sequence of numbers; `map` over non-numeric elements and the promise wrapper of the `async` function are not modelled.
- NumericValidator.ValidateData: treats every non-array as lacking an `every` method; an object carrying its own `every` is not modelled.
- DataAnalysisAndVisualization.AfterRun: every thrown value is an `Error` or `TypeError` with a string message. A stage that throws or rejects with a non-`Error` is not modelled. A string then logs `undefined`, and `null` or `undefined` makes `err.message` at src/DataAnalysisAndVisualization.jsx:106 throw inside the `catch`. In that case `error` is never set and only the `finally` clears `loading`, whereas the model always sets the generic message on failure.
- JavaScript `===` on objects (reference identity) is not needed by the modelled code and not modelled.
- Overlapping effect runs and stale completions are React scheduling; the model runs one effect at a time.
- `React.Children` flattening of nested, `null` or fragment children is not modelled: the children are a sequence of component types.
- In the orchestrator a loader that throws synchronously or returns a non-promise is covered through its settled outcome `fetched`, since the `await` sits inside the `try` (src/DataAnalysisAndVisualization.jsx:81).
- DataAnalysisAndVisualizationComponent.EffectOutcome: assumes the loader returns a thenable, which the guard at src/DataAnalysisAndVisualizationComponent.jsx:32 does not ensure; a plain function that returns a non-promise, or throws synchronously, makes `dataLoader().then` throw out of the effect at :52 with the state unchanged, whereas the model treats its value or exception as the settled outcome.
- `console.log`/`console.error` in the scatter component, the D3, Chart.js, Plotly, SVG download and MUI code, PropTypes, and the example applications (used only for example inputs) are outside the model.
