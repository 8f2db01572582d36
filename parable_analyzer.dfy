/**
 * The parable analyzer stage: maps every value `v` of a numeric series to the
 * point `{x: v, y: v ** 2}`, in order. It has no error path.
 */
module ParableAnalyzer {
  import opened JsValue

  /** `ParableAnalyzer.analyzeData`: `data.map(value => ({x: value, y: value ** 2}))`. */
  function AnalyzeData(data: seq<real>): (r: seq<Point>)
    ensures |r| == |data|
    ensures forall i :: 0 <= i < |data| ==> r[i] == Point(data[i], Square(data[i]))
  {
    if |data| == 0 then []
    else [Point(data[0], Square(data[0]))] + AnalyzeData(data[1..])
  }

  /** Each `y` is the product of the input value with itself, hence non-negative. */
  lemma YIsSquare(data: seq<real>)
    ensures forall i :: 0 <= i < |data| ==>
      AnalyzeData(data)[i].y == data[i] * data[i] && AnalyzeData(data)[i].y >= 0.0
  {
  }

  /**
   * A series symmetric about zero (`data[i] == -data[n-1-i]`) yields mirrored
   * `x` and equal `y` at mirrored positions.
   */
  lemma SymmetricInput(data: seq<real>)
    requires forall i :: 0 <= i < |data| ==> data[i] == -data[|data| - 1 - i]
    ensures forall i :: 0 <= i < |data| ==>
      AnalyzeData(data)[i].y == AnalyzeData(data)[|data| - 1 - i].y &&
      AnalyzeData(data)[i].x == -AnalyzeData(data)[|data| - 1 - i].x
  {
    var r := AnalyzeData(data);
    forall i | 0 <= i < |data|
      ensures r[i].y == r[|data| - 1 - i].y
    {
      var j := |data| - 1 - i;
      SquareOfNegation(data[j]);
      assert r[i].y == Square(-data[j]);
    }
  }

  /** The series `[-3, -2, -1, 0, 1, 2, 3]` loaded by the parable example. */
  lemma ExampleSeries()
    ensures AnalyzeData([-3.0, -2.0, -1.0, 0.0, 1.0, 2.0, 3.0]) ==
      [Point(-3.0, 9.0), Point(-2.0, 4.0), Point(-1.0, 1.0), Point(0.0, 0.0),
       Point(1.0, 1.0), Point(2.0, 4.0), Point(3.0, 9.0)]
  {
    var data := [-3.0, -2.0, -1.0, 0.0, 1.0, 2.0, 3.0];
    assert Square(-3.0) == 9.0 && Square(-2.0) == 4.0 && Square(-1.0) == 1.0 && Square(0.0) == 0.0;
    assert Square(1.0) == 1.0 && Square(2.0) == 4.0 && Square(3.0) == 9.0;
    assert |AnalyzeData(data)| == 7;
  }
}
