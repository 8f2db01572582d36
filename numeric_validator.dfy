/**
 * The numeric validator stage: a pass-through gate that lets an array through
 * unchanged when all of its elements are numbers and throws otherwise.
 */
module NumericValidator {
  import opened JsValue

  const NotNumericMessage := "Validation failed: Data must be numeric."

  /** The callback handed to `every`: `item => typeof item === 'number'`. */
  predicate IsNumber(item: Value)
    ensures IsNumber(item) <==> item.Num?
  {
    TypeOf(item) == "number"
  }

  /** Every element of the array is a JavaScript number. */
  ghost predicate AllNumbers(xs: seq<Value>)
  {
    forall i :: 0 <= i < |xs| ==> xs[i].Num?
  }

  /**
   * `NumericValidator.validateData`. A value without an `every` method (not an
   * array) makes the call `data.every(...)` itself throw a TypeError.
   */
  function ValidateData(data: Value): (r: Result<Value>)
    ensures r.Ok? ==> r.value == data
    ensures data.Arr? ==> (r.Ok? <==> AllNumbers(data.elems))
    ensures data.Arr? && !AllNumbers(data.elems) ==> r == Err(Error(NotNumericMessage))
    ensures !data.Arr? ==> r.Err? && r.error.TypeError?
  {
    match data
    case Arr(xs) =>
      if Every(xs, IsNumber) then Ok(data) else Err(Error(NotNumericMessage))
    case Null => Err(TypeError("Cannot read properties of null (reading 'every')"))
    case Undefined => Err(TypeError("Cannot read properties of undefined (reading 'every')"))
    case _ => Err(TypeError("data.every is not a function"))
  }

  /** The empty array passes, vacuously. */
  lemma EmptyPasses()
    ensures ValidateData(Arr([])) == Ok(Arr([]))
  {
  }

  /** Validating an already validated value succeeds again with the same value. */
  lemma Idempotent(data: Value)
    requires ValidateData(data).Ok?
    ensures ValidateData(ValidateData(data).value) == ValidateData(data)
  {
  }

  /** The series of the first density example loader passes unchanged. */
  lemma NumbersPass()
    ensures var data := Arr([Num(1.2), Num(2.5), Num(3.7), Num(4.1), Num(5.6),
                             Num(6.3), Num(7.8), Num(8.2), Num(9.1), Num(10.5)]);
      ValidateData(data) == Ok(data)
  {
    var data := Arr([Num(1.2), Num(2.5), Num(3.7), Num(4.1), Num(5.6),
                     Num(6.3), Num(7.8), Num(8.2), Num(9.1), Num(10.5)]);
    assert AllNumbers(data.elems);
  }

  /** An array of strings is rejected with the validation message. */
  lemma StringsRejected()
    ensures ValidateData(Arr([Str("a"), Str("b")])) == Err(Error(NotNumericMessage))
  {
  }
}
