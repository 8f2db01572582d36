/**
 * `DataAnalysisAndVisualizationComponent`: a self-contained scatter-plot
 * component. Its effect calls an asynchronous loader, checks that the loaded
 * value is an array of `{x, y}` points, passes it through an identity
 * "analysis" and stores it; three failure paths store distinct messages.
 * The render shows the error, else the points, else a loading notice.
 *
 * The component state `(fdata, error)` holds JavaScript values: `null` or the
 * loaded array, and `null` or a message string.
 */
module DataAnalysisAndVisualizationComponent {
  import opened JsValue

  const ValidationFailed2 := "Validation Failed 2"
  const DataValidationFailed := "Data validation failed"
  const ErrorLoadingData := "Error loading data"

  /** The TypeError that `item.x` throws when the item is `null`. */
  const NullItemError := NullPropertyError("x")

  /** A point: a plain object whose `x` and `y` are both defined. */
  ghost predicate IsPoint(item: Value)
  {
    item.Obj? &&
    "x" in item.fields && item.fields["x"] != Undefined &&
    "y" in item.fields && item.fields["y"] != Undefined
  }

  ghost predicate AllPoints(items: seq<Value>)
  {
    forall i :: 0 <= i < |items| ==> IsPoint(items[i])
  }

  /**
   * Scanning the items in order, the first one that is not a point is `null`:
   * the loop reaches it and `null.x` throws.
   */
  ghost predicate NullIsFirstNonPoint(items: seq<Value>)
  {
    exists i :: 0 <= i < |items| && items[i] == Null && AllPoints(items[..i])
  }

  /**
   * The test in the body of the `for…of` loop:
   * `typeof item !== 'object' || item.x === undefined || item.y === undefined`.
   * `Ok(true)` makes the loop return false; reading `x` of `null` throws.
   */
  function ItemRejected(item: Value): (r: Result<bool>)
    ensures r.Err? <==> item == Null
    ensures r.Err? ==> r.error == NullItemError
    ensures r.Ok? ==> (r.value <==> !IsPoint(item))
  {
    if TypeOf(item) != "object" then Ok(true)
    else
      match GetProp(item, "x")
      case Err(e) => Err(e)
      case Ok(x) =>
        if x == Undefined then Ok(true)
        else
          match GetProp(item, "y")
          case Err(e) => Err(e)
          case Ok(y) => Ok(y == Undefined)
  }

  lemma AllPointsCons(items: seq<Value>)
    requires |items| > 0
    ensures AllPoints(items) <==> IsPoint(items[0]) && AllPoints(items[1..])
  {
    assert forall i :: 1 <= i < |items| ==> items[i] == items[1..][i - 1];
  }

  lemma NullIsFirstNonPointCons(items: seq<Value>)
    requires |items| > 0
    ensures NullIsFirstNonPoint(items) <==>
      items[0] == Null || (IsPoint(items[0]) && NullIsFirstNonPoint(items[1..]))
  {
    if NullIsFirstNonPoint(items) {
      var i :| 0 <= i < |items| && items[i] == Null && AllPoints(items[..i]);
      if i > 0 {
        assert items[..i][0] == items[0];
        assert items[1..][i - 1] == items[i];
        assert items[1..][..i - 1] == items[..i][1..];
      }
    }
    if items[0] == Null {
      assert items[..0] == [];
    } else if IsPoint(items[0]) && NullIsFirstNonPoint(items[1..]) {
      var j :| 0 <= j < |items[1..]| && items[1..][j] == Null && AllPoints(items[1..][..j]);
      assert items[..j + 1] == [items[0]] + items[1..][..j];
      assert items[j + 1] == Null;
    }
  }

  /** The `for…of` loop of `validateData` with its early `return false`. */
  function CheckItems(items: seq<Value>): (r: Result<bool>)
    ensures r == Ok(true) <==> AllPoints(items)
    ensures r.Err? <==> NullIsFirstNonPoint(items)
    ensures r.Err? ==> r.error == NullItemError
  {
    if |items| == 0 then Ok(true)
    else
      AllPointsCons(items);
      NullIsFirstNonPointCons(items);
      match ItemRejected(items[0])
      case Err(e) => Err(e)
      case Ok(rejected) => if rejected then Ok(false) else CheckItems(items[1..])
  }

  /**
   * The component's `validateData`: false for anything but an array, else the
   * loop over the items; the empty array is valid.
   */
  function ValidateData(fdata: Value): (r: Result<bool>)
    ensures !fdata.Arr? ==> r == Ok(false)
    ensures fdata.Arr? ==> (r == Ok(true) <==> AllPoints(fdata.elems))
    ensures r.Err? <==> fdata.Arr? && NullIsFirstNonPoint(fdata.elems)
    ensures r.Err? ==> r.error == NullItemError
  {
    if !fdata.Arr? then Ok(false) else CheckItems(fdata.elems)
  }

  /** The component's `analyzeAndVisualizeData`: the identity on the loaded data. */
  function AnalyzeAndVisualizeData(fdata: Value): (r: Value)
    ensures r == fdata
  {
    fdata
  }

  /**
   * The second operand of the loader guard,
   * `!dataLoader.constructor.name === 'AsyncFunction'`: it compares a boolean
   * with a string, so it never holds.
   */
  function AsyncClause(dataLoader: Value): (b: bool)
    requires dataLoader.Fun?
    ensures !b
  {
    Bool(!Truthy(Str(dataLoader.ctorName))) == Str("AsyncFunction")
  }

  /** The component state: `fdata` and `error`. */
  datatype ViewState = ViewState(fdata: Value, error: Value)

  const Initial := ViewState(Null, Null)

  /** `validateAndVisualize`: the state it sets, or the exception it rejects with. */
  function ValidateAndVisualize(fdata: Value, before: ViewState): (r: Result<ViewState>)
    ensures r.Err? <==> ValidateData(fdata).Err?
    ensures ValidateData(fdata) == Ok(true) ==> r == Ok(ViewState(fdata, before.error))
    ensures ValidateData(fdata) == Ok(false) ==> r == Ok(ViewState(Null, Str(DataValidationFailed)))
  {
    match ValidateData(fdata)
    case Err(e) => Err(e)
    case Ok(valid) =>
      if valid then Ok(ViewState(AnalyzeAndVisualizeData(fdata), before.error))
      else Ok(ViewState(Null, Str(DataValidationFailed)))
  }

  /**
   * The state after one run of the effect from `before`. `fetched` is how the
   * promise returned by `dataLoader()` settles; it is only consulted when the
   * guard lets the loader be called.
   */
  function EffectOutcome(dataLoader: Value, fetched: Result<Value>, before: ViewState): (after: ViewState)
    ensures !dataLoader.Fun? ==> after == ViewState(Null, Str(ValidationFailed2))
    ensures dataLoader.Fun? && fetched.Err? ==> after == ViewState(Null, Str(ErrorLoadingData))
    ensures dataLoader.Fun? && fetched.Ok? && !fetched.value.Arr? ==>
      after == ViewState(Null, Str(DataValidationFailed))
    ensures dataLoader.Fun? && fetched.Ok? && fetched.value.Arr? ==>
      after == (if AllPoints(fetched.value.elems) then ViewState(fetched.value, before.error)
                else if NullIsFirstNonPoint(fetched.value.elems) then ViewState(Null, Str(ErrorLoadingData))
                else ViewState(Null, Str(DataValidationFailed)))
  {
    if TypeOf(dataLoader) != "function" || AsyncClause(dataLoader) then
      ViewState(Null, Str(ValidationFailed2))
    else
      var settled := match fetched
        case Ok(v) => ValidateAndVisualize(v, before)
        case Err(e) => Err(e);
      match settled
      case Ok(after) => after
      case Err(_) => ViewState(Null, Str(ErrorLoadingData))
  }

  /** What the component renders. */
  datatype View = ErrorMessage(message: Value) | ScatterPlot(points: Value) | LoadingMessage

  /** The render choice: a truthy error first, then truthy data, then loading. */
  function Render(s: ViewState): (v: View)
    ensures v.ErrorMessage? <==> Truthy(s.error)
    ensures v.ScatterPlot? <==> !Truthy(s.error) && Truthy(s.fdata)
    ensures v.ErrorMessage? ==> v.message == s.error
    ensures v.ScatterPlot? ==> v.points == s.fdata
  {
    if Truthy(s.error) then ErrorMessage(s.error)
    else if Truthy(s.fdata) then ScatterPlot(s.fdata)
    else LoadingMessage
  }

  /** The component instance: its two state hooks and the loader calls it made. */
  class Component {
    var fdata: Value
    var error: Value
    ghost var loaderCalls: nat

    function State(): ViewState
      reads this
    {
      ViewState(fdata, error)
    }

    /** `useState(null)` twice. */
    constructor()
      ensures State() == Initial && loaderCalls == 0
    {
      fdata := Null;
      error := Null;
      loaderCalls := 0;
    }

    /**
     * One run of the effect: the loader guard, the call `dataLoader()`, the
     * `.then(validateAndVisualize)` step and the `.catch` handler, each
     * setting state through `setData`/`setError`.
     */
    method Effect(dataLoader: Value, fetched: Result<Value>)
      modifies this
      ensures State() == EffectOutcome(dataLoader, fetched, old(State()))
      ensures loaderCalls == old(loaderCalls) + (if dataLoader.Fun? then 1 else 0)
    {
      if TypeOf(dataLoader) != "function" || AsyncClause(dataLoader) {
        fdata := Null;
        error := Str(ValidationFailed2);
        return;
      }
      loaderCalls := loaderCalls + 1;
      if fetched.Err? {
        error := Str(ErrorLoadingData);
        fdata := Null;
        return;
      }
      var loaded := fetched.value;
      var valid := ValidateData(loaded);
      if valid.Err? {
        error := Str(ErrorLoadingData);
        fdata := Null;
      } else if valid.value {
        var result := AnalyzeAndVisualizeData(loaded);
        fdata := result;
      } else {
        fdata := Null;
        error := Str(DataValidationFailed);
      }
    }
  }

  /** The first loader of the example application: its fourth item has `z` instead of `y`. */
  lemma ExampleWithMissingYRejected(before: ViewState)
    ensures EffectOutcome(Fun("AsyncFunction"), Ok(Arr([
        Obj(map["x" := Num(1.0), "y" := Num(5.0)]),
        Obj(map["x" := Num(2.0), "y" := Num(8.0)]),
        Obj(map["x" := Num(3.0), "y" := Num(3.0)]),
        Obj(map["x" := Num(4.0), "z" := Num(5.0)])])), before)
      == ViewState(Null, Str(DataValidationFailed))
  {
    var items := [
        Obj(map["x" := Num(1.0), "y" := Num(5.0)]),
        Obj(map["x" := Num(2.0), "y" := Num(8.0)]),
        Obj(map["x" := Num(3.0), "y" := Num(3.0)]),
        Obj(map["x" := Num(4.0), "z" := Num(5.0)])];
    assert !IsPoint(items[3]);
    forall i | 0 <= i < |items|
      ensures items[i] != Null
    {
    }
  }

  /** A `null` item passes the `typeof` test, throws on `item.x`, and ends in the load error. */
  lemma NullItemIsLoadError(before: ViewState)
    ensures EffectOutcome(Fun("AsyncFunction"), Ok(Arr([Obj(map["x" := Num(1.0), "y" := Num(2.0)]), Null])), before)
      == ViewState(Null, Str(ErrorLoadingData))
  {
    var items := [Obj(map["x" := Num(1.0), "y" := Num(2.0)]), Null];
    assert items[..1] == [items[0]];
    assert NullIsFirstNonPoint(items);
  }

  /**
   * After one run of the effect the component never shows the loading notice:
   * every path stores either a message or an array.
   */
  lemma NeverLoadingAfterEffect(dataLoader: Value, fetched: Result<Value>, before: ViewState)
    ensures Render(EffectOutcome(dataLoader, fetched, before)) != LoadingMessage
  {
  }

  /**
   * A successful load keeps an error left by an earlier run, which still takes
   * precedence in the render, so the new points are not shown.
   */
  lemma SuccessKeepsEarlierError(dataLoader: Value, points: seq<Value>, before: ViewState)
    requires dataLoader.Fun? && AllPoints(points) && Truthy(before.error)
    ensures EffectOutcome(dataLoader, Ok(Arr(points)), before) == ViewState(Arr(points), before.error)
    ensures Render(EffectOutcome(dataLoader, Ok(Arr(points)), before)) == ErrorMessage(before.error)
  {
  }

  /** From the initial state a successful load shows exactly the loaded points. */
  lemma SuccessFromInitialShowsPoints(dataLoader: Value, points: seq<Value>)
    requires dataLoader.Fun? && AllPoints(points)
    ensures Render(EffectOutcome(dataLoader, Ok(Arr(points)), Initial)) == ScatterPlot(Arr(points))
  {
  }
}
