/** `SigmodLayer`: an activation layer applying `sigmod` to each neuron. It has no
    weights, so its `update` has nothing to change. */
module SigmodLayer {
  import opened Matrix
  import opened Nn

  /** `sigmod` applied entry-wise; the output is cached only when training. */
  function Forward(exp: Exp, input: Mat, training: bool): (r: (Mat, LayerCache))
    ensures SameShape(r.0, input)
    ensures forall i, j :: 0 <= i < |input| && 0 <= j < |input[i]| ==>
              r.0[i][j] == Sigmod(exp, input[i][j]) && 0.0 < r.0[i][j] < 1.0
    ensures r.1 == if training then [r.0] else []
  {
    var out := MapMat(input, x => Sigmod(exp, x));
    (out, if training then [out] else [])
  }

  /** The local derivative `out * (1 - out)` of each cached output, in the order
      `iter()` visits them. */
  function Slopes(a: seq<real>): (r: seq<real>)
    ensures |r| == |a| && forall i :: 0 <= i < |a| ==> r[i] == SigmodSlope(a[i])
  {
    seq(|a|, i requires 0 <= i < |a| => SigmodSlope(a[i]))
  }

  /** For each cached output `out[i]`, sums `g[i] * out[i] * (1 - out[i])` over every
      row `g` of `grads` into a column with one entry per neuron. The result keeps
      the `(n, 1)` shape, unlike the `(1, n)` row of the ReLU and softmax layers.
      No parameter gradients are produced. */
  method Backward(grads: Mat, cacheForward: LayerCache) returns (up: Mat, paramGrads: LayerCache)
    requires |cacheForward| >= 1
    requires RowsCover(grads, |Flatten(cacheForward[0])|)
    ensures up == Column(ChainSums(Slopes(Flatten(cacheForward[0])), grads))
    ensures paramGrads == []
  {
    var a := Flatten(cacheForward[0]);
    var n := |a|;
    var r := new real[n, 1]((_, _) => 0.0);
    for i := 0 to n
      invariant forall i' :: 0 <= i' < i ==> r[i', 0] == SumScaledCol(grads, i', SigmodSlope(a[i']), |grads|)
      invariant forall i' :: i <= i' < n ==> r[i', 0] == 0.0
    {
      var out := a[i];
      for row := 0 to |grads|
        invariant forall i' :: 0 <= i' < i ==> r[i', 0] == SumScaledCol(grads, i', SigmodSlope(a[i']), |grads|)
        invariant forall i' :: i < i' < n ==> r[i', 0] == 0.0
        invariant r[i, 0] == SumScaledCol(grads, i, SigmodSlope(out), row)
      {
        r[i, 0] := r[i, 0] + grads[row][i] * SigmodSlope(out);
      }
    }
    up := ToMat(r);
    MatEq(up, Column(ChainSums(Slopes(a), grads)));
    paramGrads := [];
  }

  /** Backward on the cache of a training forward pass over a column `x` uses, for
      neuron `i`, the derivative of `sigmod` at `x[i]`: by `ChainSumsFactor`, entry
      `i` of its result is that derivative times the sum of column `i` of `grads`. */
  lemma BackwardAfterForward(exp: Exp, x: Mat)
    requires IsMat(x, |x|, 1)
    ensures Forward(exp, x, true).1 == [Forward(exp, x, true).0]
    ensures var s := Slopes(Flatten(Forward(exp, x, true).0));
            |s| == |x| && forall i :: 0 <= i < |x| ==> s[i] == SigmodSlope(Sigmod(exp, x[i][0]))
  {
    FlattenColumn(Forward(exp, x, true).0);
  }

  /** The unit test's forward step: `[0, 0]` becomes `[0.5, 0.5]`. */
  lemma ExampleForward(exp: Exp)
    ensures Forward(exp, [[0.0], [0.0]], true) == ([[0.5], [0.5]], [[[0.5], [0.5]]])
  {
    SigmodAtZero(exp);
    MatEq(Forward(exp, [[0.0], [0.0]], true).0, [[0.5], [0.5]]);
  }

  /** The unit test's backward step: the row `[0.5, 0.5]` against the cached
      `[0.5, 0.5]` gives `0.5 * 0.25` on each neuron. */
  method ExampleBackward() returns (up: Mat)
    ensures up == [[0.125], [0.125]]
  {
    var cache: Mat := [[0.5], [0.5]];
    var grads: Mat := [[0.5, 0.5]];
    FlattenColumn(cache);
    ChainSumsFactor(Slopes(Flatten(cache)), grads, 0);
    ChainSumsFactor(Slopes(Flatten(cache)), grads, 1);
    assert SumCol(grads, 0, 1) == 0.5 && SumCol(grads, 1, 1) == 0.5;
    var paramGrads;
    up, paramGrads := Backward(grads, [cache]);
    MatEq(up, [[0.125], [0.125]]);
  }
}
