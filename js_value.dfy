/**
 * The slice of JavaScript's value model that the pipeline stages inspect:
 * `typeof`, truthiness, reading a data property, `Array.prototype.every`,
 * and thrown exceptions as a failure-compatible `Result`.
 *
 * Numbers are exact reals; IEEE-754 rounding, NaN and the infinities are not
 * values of this model (the density stage represents a NaN evaluation with
 * `Option.None` instead).
 */
module JsValue {

  datatype Option<+T> = None | Some(value: T)

  /** A thrown JavaScript exception: a plain `Error` or a runtime `TypeError`. */
  datatype Exception = Error(message: string) | TypeError(message: string)

  /** A settled promise or a returned-or-thrown call: `Ok` resolves, `Err` rejects. */
  datatype Result<+T> = Ok(value: T) | Err(error: Exception) {
    predicate IsFailure() {
      Err?
    }

    function PropagateFailure<U>(): Result<U>
      requires Err?
    {
      Err(error)
    }

    function Extract(): T
      requires Ok?
    {
      value
    }
  }

  /**
   * A JavaScript value. `Fun` is an opaque callable that only exposes the
   * name of its constructor (`"AsyncFunction"` for an `async` arrow,
   * `"Function"` for a plain one).
   */
  datatype Value =
    | Undefined
    | Null
    | Bool(b: bool)
    | Num(n: real)
    | Str(s: string)
    | Arr(elems: seq<Value>)
    | Obj(fields: map<string, Value>)
    | Fun(ctorName: string)

  /** A sample of an analysed series: the `{x, y}` objects the analyzers emit. */
  datatype Point = Point(x: real, y: real)

  /** Real multiplication together with the sign rules the proofs rely on. */
  function Product(a: real, b: real): (r: real)
    ensures a > 0.0 && b > 0.0 ==> r > 0.0
    ensures a < 0.0 && b < 0.0 ==> r > 0.0
    ensures a == 0.0 || b == 0.0 ==> r == 0.0
  {
    a * b
  }

  /** `v ** 2`, equivalently `Math.pow(v, 2)`: zero exactly at zero, positive elsewhere. */
  function Square(v: real): (r: real)
    ensures r >= 0.0
    ensures r == 0.0 <==> v == 0.0
  {
    Product(v, v)
  }

  /** Opposite values have the same square. */
  lemma SquareOfNegation(v: real)
    ensures Square(-v) == Square(v)
  {
  }

  /** The `typeof` operator. */
  function TypeOf(v: Value): (t: string)
    ensures t == "number" <==> v.Num?
    ensures t == "string" <==> v.Str?
    ensures t == "function" <==> v.Fun?
    ensures t == "object" <==> v.Null? || v.Arr? || v.Obj?
  {
    match v
    case Undefined => "undefined"
    case Null => "object"
    case Bool(_) => "boolean"
    case Num(_) => "number"
    case Str(_) => "string"
    case Arr(_) => "object"
    case Obj(_) => "object"
    case Fun(_) => "function"
  }

  /** JavaScript truthiness (`if (v)`, `!v`, `c ? a : b`). */
  predicate Truthy(v: Value)
    ensures v.Undefined? || v.Null? ==> !Truthy(v)
    ensures v.Arr? || v.Obj? || v.Fun? ==> Truthy(v)
    ensures v.Num? ==> (Truthy(v) <==> v.n != 0.0)
    ensures v.Str? ==> (Truthy(v) <==> |v.s| > 0)
  {
    match v
    case Undefined => false
    case Null => false
    case Bool(b) => b
    case Num(n) => n != 0.0
    case Str(s) => s != ""
    case _ => true
  }

  /** The TypeError thrown by reading property `key` of `null`. */
  function NullPropertyError(key: string): Exception
  {
    TypeError("Cannot read properties of null (reading '" + key + "')")
  }

  /**
   * Reading the data property `v.key` for a key that neither arrays,
   * primitives nor functions carry (the core reads only `x` and `y` this way):
   * `null` and `undefined` throw a TypeError, a plain object yields its own
   * field or `undefined`, everything else yields `undefined`.
   */
  function GetProp(v: Value, key: string): (r: Result<Value>)
    ensures r.Err? <==> v == Null || v == Undefined
    ensures v == Null ==> r == Err(NullPropertyError(key))
    ensures v.Obj? ==> r == Ok(if key in v.fields then v.fields[key] else Undefined)
    ensures !(v.Null? || v.Undefined? || v.Obj?) ==> r == Ok(Undefined)
  {
    match v
    case Undefined => Err(TypeError("Cannot read properties of undefined (reading '" + key + "')"))
    case Null => Err(NullPropertyError(key))
    case Obj(m) => Ok(if key in m then m[key] else Undefined)
    case _ => Ok(Undefined)
  }

  /**
   * `Array.prototype.every`: visits the elements in order and stops at the
   * first one the callback rejects.
   */
  function Every(xs: seq<Value>, p: Value -> bool): (b: bool)
    ensures b <==> forall i :: 0 <= i < |xs| ==> p(xs[i])
  {
    if |xs| == 0 then true
    else if !p(xs[0]) then false
    else
      assert forall i :: 1 <= i < |xs| ==> xs[i] == xs[1..][i - 1];
      Every(xs[1..], p)
  }
}
