/** `SoftmaxLayer`: the output layer, turning its inputs into probabilities. Its
    backward pass is the derivative of cross-entropy through softmax, `p - y`. It
    has no weights, so its `update` has nothing to change. */
module SoftmaxLayer {
  import opened Matrix
  import opened Nn

  /** `exp` summed over `xs` left to right, as the forward `fold` does: positive as
      soon as there is one entry. */
  function ExpSum(exp: Exp, xs: seq<real>): (s: real)
    ensures s >= 0.0 && (|xs| > 0 ==> s > 0.0)
  {
    if |xs| == 0 then 0.0
    else
      var x := xs[|xs| - 1];
      assert exp(x) > 0.0;
      ExpSum(exp, xs[..|xs| - 1]) + exp(x)
  }

  /** The denominator of every entry that exists is positive. */
  lemma ExpSumPositive(exp: Exp, m: Mat)
    ensures forall i :: 0 <= i < |m| && |m[i]| > 0 ==> ExpSum(exp, Flatten(m)) > 0.0
  {
    forall i | 0 <= i < |m| && |m[i]| > 0 {
      FlattenNonEmpty(m, i);
    }
  }

  /** `exp` is positive on every entry of `m`. */
  lemma ExpPositiveOn(exp: Exp, m: Mat)
    ensures forall i, j :: 0 <= i < |m| && 0 <= j < |m[i]| ==> exp(m[i][j]) > 0.0
  {
    forall i, j | 0 <= i < |m| && 0 <= j < |m[i]| ensures exp(m[i][j]) > 0.0 {
      var x := m[i][j];
      assert exp(x) > 0.0;
    }
  }

  /** `exp(x) / sum(exp)` entry-wise, with no subtraction of the maximum; the
      output is cached only when training. Each output is positive. */
  function Forward(exp: Exp, input: Mat, training: bool): (r: (Mat, LayerCache))
    ensures SameShape(r.0, input)
    ensures forall i, j :: 0 <= i < |input| && 0 <= j < |input[i]| ==> r.0[i][j] > 0.0
    ensures r.1 == if training then [r.0] else []
  {
    ExpSumPositive(exp, input);
    ExpPositiveOn(exp, input);
    var s := ExpSum(exp, Flatten(input));
    var out := seq(|input|, i requires 0 <= i < |input| =>
                 seq(|input[i]|, j requires 0 <= j < |input[i]| => exp(input[i][j]) / s));
    (out, if training then [out] else [])
  }

  /** Dividing every term by `s` divides the sum by `s`. */
  lemma {:induction false} ExpSumScaled(exp: Exp, xs: seq<real>, ys: seq<real>, s: real)
    requires s != 0.0 && |ys| == |xs|
    requires forall k :: 0 <= k < |ys| ==> ys[k] == exp(xs[k]) / s
    ensures Sum(ys) == ExpSum(exp, xs) / s
  {
    if |xs| > 0 {
      ExpSumScaled(exp, xs[..|xs| - 1], ys[..|ys| - 1], s);
    }
  }

  /** A non-zero total divided by itself is one. */
  lemma DivSelf(s: real)
    requires s != 0.0
    ensures s / s == 1.0
  {
  }

  /** The outputs of a forward pass over at least one entry sum to 1. */
  lemma OutputsSumToOne(exp: Exp, input: Mat, training: bool)
    requires |Flatten(input)| > 0
    ensures Sum(Flatten(Forward(exp, input, training).0)) == 1.0
  {
    var s := ExpSum(exp, Flatten(input));
    var out := Forward(exp, input, training).0;
    assert s > 0.0;
    var f := x => exp(x) / s;
    assert forall i, j :: 0 <= i < |input| && 0 <= j < |input[i]| ==> out[i][j] == f(input[i][j]);
    FlattenPointwise(input, out, f);
    ExpSumScaled(exp, Flatten(input), Flatten(out), s);
    DivSelf(s);
  }

  /** Over a non-empty column every output is a probability: above 0 and at most 1. */
  lemma OutputsAreProbabilities(exp: Exp, x: Mat, training: bool)
    requires IsMat(x, |x|, 1) && |x| > 0
    ensures forall k :: 0 <= k < |x| ==> 0.0 < Forward(exp, x, training).0[k][0] <= 1.0
  {
    var out := Forward(exp, x, training).0;
    FlattenColumn(x);
    FlattenColumn(out);
    OutputsSumToOne(exp, x, training);
    SumNonNegative(Flatten(out));
  }

  /** The cached output minus `grads` (the one-hot label the cross-entropy loss
      passes back), transposed from an `(n, 1)` column to a `(1, n)` row. No
      parameter gradients are produced. */
  function Backward(grads: Mat, cacheForward: LayerCache): (r: (Mat, LayerCache))
    requires |cacheForward| >= 1
    requires IsMat(cacheForward[0], |cacheForward[0]|, 1) && IsMat(grads, |cacheForward[0]|, 1)
    ensures IsMat(r.0, 1, |cacheForward[0]|)
    ensures forall i :: 0 <= i < |cacheForward[0]| ==> r.0[0][i] == cacheForward[0][i][0] - grads[i][0]
    ensures r.1 == []
  {
    (Transpose(Sub(cacheForward[0], grads), 1), [])
  }

  /** After a training forward pass over a non-empty column, backward against a
      target column whose entries sum to 1 (a one-hot target) gives gradients that
      sum to 0. */
  lemma GradientSumsToZero(exp: Exp, x: Mat, target: Mat)
    requires IsMat(x, |x|, 1) && |x| > 0 && IsMat(target, |x|, 1)
    requires Sum(Flatten(target)) == 1.0
    ensures Sum(Backward(target, Forward(exp, x, true).1).0[0]) == 0.0
  {
    var out := Forward(exp, x, true).0;
    FlattenColumn(x);
    OutputsSumToOne(exp, x, true);
    assert IsMat(out, |x|, 1);
    var g := Backward(target, [out]).0[0];
    FlattenColumn(out);
    FlattenColumn(target);
    assert forall k :: 0 <= k < |g| ==> g[k] == Flatten(out)[k] - Flatten(target)[k];
    SumSub(Flatten(out), Flatten(target), g);
  }

  /** The unit test: forward of `[2, 3, 5]`, then backward against the one-hot
      target `[0, 1, 0]`, which subtracts 1 from the middle output only. */
  lemma Example(exp: Exp)
    ensures var out := Forward(exp, [[2.0], [3.0], [5.0]], true);
            && out.1 == [out.0]
            && Backward([[0.0], [1.0], [0.0]], out.1).0
               == [[out.0[0][0], out.0[1][0] - 1.0, out.0[2][0]]]
  {
    var out := Forward(exp, [[2.0], [3.0], [5.0]], true);
    var g := Backward([[0.0], [1.0], [0.0]], out.1).0;
    assert g[0] == [out.0[0][0], out.0[1][0] - 1.0, out.0[2][0]];
  }
}
