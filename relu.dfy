/** `ReLULayer`: an activation layer applying `max(x, 0)` to each neuron. It has no
    weights, so its `update` has nothing to change. */
module ReLULayer {
  import opened Matrix
  import opened Nn

  /** `max(x, 0)`. */
  function Relu(x: real): real {
    if x > 0.0 then x else 0.0
  }

  /** `max(x, 0)` entry-wise; the INPUT, not the output, is cached when training. */
  function Forward(input: Mat, training: bool): (r: (Mat, LayerCache))
    ensures SameShape(r.0, input)
    ensures forall i, j :: 0 <= i < |input| && 0 <= j < |input[i]| ==>
              r.0[i][j] >= 0.0 && r.0[i][j] >= input[i][j] &&
              (r.0[i][j] == input[i][j] || r.0[i][j] == 0.0)
    ensures r.1 == if training then [input] else []
  {
    (MapMat(input, Relu), if training then [input] else [])
  }

  /** The local derivative of each cached input: 1 where it is positive, else 0. */
  function Slopes(a: seq<real>): (r: seq<real>)
    ensures |r| == |a| && forall i :: 0 <= i < |a| ==> r[i] == if a[i] > 0.0 then 1.0 else 0.0
  {
    seq(|a|, i requires 0 <= i < |a| => if a[i] > 0.0 then 1.0 else 0.0)
  }

  /** For each cached input `x[i]`, sums `g[i] * (x[i] > 0 ? 1 : 0)` over every row `g`
      of `grads` into an `(n, 1)` column, then transposes it to the `(1, n)` row
      the previous layer reads. No parameter gradients are produced. */
  method Backward(grads: Mat, cacheForward: LayerCache) returns (up: Mat, paramGrads: LayerCache)
    requires |cacheForward| >= 1
    requires RowsCover(grads, |Flatten(cacheForward[0])|)
    ensures up == [ChainSums(Slopes(Flatten(cacheForward[0])), grads)]
    ensures paramGrads == []
  {
    var a := Flatten(cacheForward[0]);
    var n := |a|;
    var r := new real[n, 1]((_, _) => 0.0);
    for i := 0 to n
      invariant forall i' :: 0 <= i' < i ==> r[i', 0] == SumScaledCol(grads, i', Slopes(a)[i'], |grads|)
      invariant forall i' :: i <= i' < n ==> r[i', 0] == 0.0
    {
      var input := a[i];
      for row := 0 to |grads|
        invariant forall i' :: 0 <= i' < i ==> r[i', 0] == SumScaledCol(grads, i', Slopes(a)[i'], |grads|)
        invariant forall i' :: i < i' < n ==> r[i', 0] == 0.0
        invariant r[i, 0] == SumScaledCol(grads, i, Slopes(a)[i], row)
      {
        r[i, 0] := r[i, 0] + grads[row][i] * (if input > 0.0 then 1.0 else 0.0);
      }
    }
    up := Transpose(ToMat(r), 1);
    MatEq(up, [ChainSums(Slopes(a), grads)]);
    paramGrads := [];
  }

  /** Backward on the cache of a training forward pass over `x`: a neuron whose input
      was not positive passes no gradient back, and any other passes back the sum of
      its column of `grads`. */
  lemma BackwardAfterForward(x: Mat, grads: Mat)
    requires RowsCover(grads, |Flatten(x)|)
    ensures Forward(x, true).1 == [x]
    ensures var a := Flatten(x);
            forall i :: 0 <= i < |a| ==>
              ChainSums(Slopes(a), grads)[i] == if a[i] > 0.0 then SumCol(grads, i, |grads|) else 0.0
  {
    var a := Flatten(x);
    forall i | 0 <= i < |a| {
      ChainSumsFactor(Slopes(a), grads, i);
    }
  }

  /** The unit test's forward step: `[0, 1]` is kept as is. */
  lemma ExampleForward()
    ensures Forward([[0.0], [1.0]], true) == ([[0.0], [1.0]], [[[0.0], [1.0]]])
  {
    MatEq(Forward([[0.0], [1.0]], true).0, [[0.0], [1.0]]);
  }

  /** The unit test's backward step: the row `[0.5, 0.5]` against the cached input
      `[0, 1]` gives `[0, 0.5]`. */
  method ExampleBackward() returns (up: Mat)
    ensures up == [[0.0, 0.5]]
  {
    var cache: Mat := [[0.0], [1.0]];
    var grads: Mat := [[0.5, 0.5]];
    FlattenColumn(cache);
    ChainSumsFactor(Slopes(Flatten(cache)), grads, 0);
    ChainSumsFactor(Slopes(Flatten(cache)), grads, 1);
    assert SumCol(grads, 1, 1) == 0.5;
    var paramGrads;
    up, paramGrads := Backward(grads, [cache]);
    assert up[0] == [0.0, 0.5];
  }
}
