/** `MSE`: the mean squared error loss, accumulated over the samples seen since
    the last reset. */
module MseLoss {
  import opened Matrix

  /** The square `sum_loss` maps over each difference. */
  function Square(x: real): real {
    x * x
  }

  /** `sum((target - result)^2)` over every entry, as `sum_loss` adds it. */
  function SquaredError(result: Mat, target: Mat): real
    requires SameShape(target, result)
  {
    var diff := Sub(target, result);
    Sum(Flatten(MapMat(diff, Square)))
  }

  /** The squared error is never negative, and is zero exactly when the result
      equals the label. */
  lemma SquaredErrorZero(result: Mat, target: Mat)
    requires SameShape(target, result)
    ensures SquaredError(result, target) >= 0.0
    ensures SquaredError(result, target) == 0.0 <==> result == target
  {
    var diff := Sub(target, result);
    var sq := MapMat(diff, Square);
    FlattenPointwise(diff, sq, Square);
    SumNonNegative(Flatten(sq));
    if SquaredError(result, target) == 0.0 {
      forall i, j | 0 <= i < |target| && 0 <= j < |target[i]|
        ensures target[i][j] == result[i][j]
      {
        FlattenHas(sq, i, j);
        var k :| 0 <= k < |Flatten(sq)| && Flatten(sq)[k] == sq[i][j];
        var d := diff[i][j];
        assert sq[i][j] == Flatten(sq)[k] == 0.0;
        assert Square(d) == 0.0;
        SquareZero(d);
      }
      MatEq(result, target);
    } else if result == target {
      FlattenPointwise(diff, sq, _ => 0.0);
    }
  }

  /** A real whose square is zero is zero. */
  lemma SquareZero(d: real)
    requires Square(d) == 0.0
    ensures d == 0.0
  {
    SquarePositive(d);
    if d != 0.0 {
      calc {
        Square(d);
        == d * d;
        > 0.0;
      }
    }
  }

  class MSE {
    var sum: real
    var total: nat

    /** The accumulated error is never negative. */
    ghost predicate Valid()
      reads this
    {
      sum >= 0.0
    }

    /** Nothing accumulated yet. */
    constructor ()
      ensures Valid() && sum == 0.0 && total == 0
    {
      sum := 0.0;
      total := 0;
    }

    /** Adds the sample's squared error, so `sum` never decreases, and counts the
        sample. */
    method SumLoss(result: Mat, target: Mat)
      requires Valid() && SameShape(target, result)
      modifies this
      ensures Valid() && sum >= old(sum)
      ensures sum == old(sum) + SquaredError(result, target)
      ensures total == old(total) + 1
    {
      SquaredErrorZero(result, target);
      sum := sum + SquaredError(result, target);
      total := total + 1;
    }

    /** `sum / total`, which is never negative. */
    function Loss(): (r: real)
      reads this
      requires Valid() && total > 0
      ensures r >= 0.0
    {
      sum / total as real
    }

    /** Back to the state `new` builds. */
    method Reset()
      modifies this
      ensures Valid() && sum == 0.0 && total == 0
    {
      sum := 0.0;
      total := 0;
    }
  }

  /** `2 * (result - label)` for an `(n, 1)` result, transposed to a `(1, n)` row:
      the derivative of the squared error with respect to each output. */
  function Grads(result: Mat, target: Mat): (r: Mat)
    requires IsMat(result, |result|, 1) && IsMat(target, |result|, 1)
    ensures IsMat(r, 1, |result|)
    ensures forall i :: 0 <= i < |result| ==> r[0][i] == 2.0 * (result[i][0] - target[i][0])
  {
    Transpose(Scale(Sub(result, target), 2.0), 1)
  }

  /** The gradient is the zero row exactly when the result equals the label. */
  lemma GradsZero(result: Mat, target: Mat)
    requires IsMat(result, |result|, 1) && IsMat(target, |result|, 1)
    ensures Grads(result, target) == [seq(|result|, _ => 0.0)] <==> result == target
  {
    var g := Grads(result, target);
    var zero := [seq(|result|, _ => 0.0)];
    if result == target {
      MatEq(g, zero);
    }
    if g == zero {
      forall i, j | 0 <= i < |target| && 0 <= j < |target[i]|
        ensures target[i][j] == result[i][j]
      {
        assert g[0][i] == 0.0;
      }
      MatEq(result, target);
    }
  }
}
