/** `DenseLayerNoActive`: a fully connected layer without activation, `z = w·a + b`.
    `w` has one row per neuron of this layer and one column per neuron of the
    previous layer; `b` is a column with one bias per neuron. */
module DenseNoActive {
  import opened Matrix
  import opened Nn

  /** What `backward` reads of the forward cache: a first entry `a` with at most
      `nIn` rows (each is indexed into `w_grads`), each row with a first entry. */
  predicate CacheFits(cache: LayerCache, nIn: nat) {
    |cache| >= 1 && |cache[0]| <= nIn && RowsCover(cache[0], 1)
  }

  /** What `update` reads of a gradient cache `[bias_grads, w_grads]` for a layer
      whose `w` is `(nOut, nIn)`: entry `(i, 0)` of the first and `(i, j)` of the
      second for every `i < nOut`, `j < nIn`. */
  predicate GradsFit(grads: LayerCache, nOut: nat, nIn: nat) {
    && |grads| >= 2
    && nOut <= |grads[0]| && (forall i :: 0 <= i < nOut ==> 1 <= |grads[0][i]|)
    && nOut <= |grads[1]| && (forall i :: 0 <= i < nOut ==> nIn <= |grads[1][i]|)
  }

  /** The bias gradient `backward` computes for a layer whose `w` is `(nOut, nIn)`:
      entry `i` is the sum of column `i` of `grads` for every neuron `i < nIn` the
      loop visits, and 0 for the rest. */
  ghost function BiasGradient(grads: Mat, nOut: nat, nIn: nat): (r: Mat)
    ensures IsMat(r, nOut, 1)
  {
    seq(nOut, i requires 0 <= i < nOut => [if i < nIn then SumCol(grads, i, |grads|) else 0.0])
  }

  /** The weight gradient `backward` computes: entry `(i, k)` is the sum over the
      rows `g` of `grads` of `a[k] * g[i]`, for `i < nIn` and `k` a row of the
      cached input `a`, and 0 elsewhere. */
  ghost function WeightGradient(a: Mat, grads: Mat, nOut: nat, nIn: nat): (r: Mat)
    ensures IsMat(r, nOut, nIn)
  {
    seq(nOut, i requires 0 <= i < nOut =>
      seq(nIn, k requires 0 <= k < nIn =>
        if i < nIn && k < |a| then SumScaledCol(grads, i, At(a[k], 0), |grads|) else 0.0))
  }

  /** Each weight gradient is the input entry times the neuron's bias gradient:
      `w_grads[i, k] == a[k] * bias_grads[i]`. */
  lemma WeightGradientIsOuterProduct(a: Mat, grads: Mat, nOut: nat, nIn: nat, i: nat, k: nat)
    requires i < nIn <= nOut && k < |a| && k < nIn
    ensures WeightGradient(a, grads, nOut, nIn)[i][k] == At(a[k], 0) * BiasGradient(grads, nOut, nIn)[i][0]
  {
    SumScaledColFactor(grads, i, At(a[k], 0), |grads|);
  }

  /** A single upstream row of ones gives the derivative of `w·a + b` itself:
      bias gradient 1 and weight gradient `a[k]` for every neuron the loop visits. */
  lemma OnesRowGradient(a: Mat, n: nat, nOut: nat, nIn: nat, i: nat, k: nat)
    requires i < nIn <= nOut && k < |a| && k < nIn && i < n
    ensures BiasGradient([seq(n, _ => 1.0)], nOut, nIn)[i][0] == 1.0
    ensures WeightGradient(a, [seq(n, _ => 1.0)], nOut, nIn)[i][k] == At(a[k], 0)
  {
    var g := [seq(n, _ => 1.0)];
    assert SumCol(g, i, 1) == 1.0 by { assert At(g[0], i) == 1.0; }
    WeightGradientIsOuterProduct(a, g, nOut, nIn, i, k);
  }

  /** Entry `(i, k)` of `w_grads` once `rows` rows of `grads` have been added into row `i`. */
  ghost function WGradAt(a: Mat, grads: Mat, i: nat, k: nat, rows: nat): real
    requires rows <= |grads|
  {
    if k < |a| then SumScaledCol(grads, i, At(a[k], 0), rows) else 0.0
  }

  class DenseLayerNoActive {
    var w: Mat2
    var b: Mat2

    /** `b` is a separate column with one entry per row of `w`. */
    ghost predicate Valid()
      reads this
    {
      w != b && b.Length0 == w.Length0 && b.Length1 == 1
    }

    /** The layer built from given weights and biases. */
    constructor (w0: Mat, b0: Mat)
      requires Rect(w0) && IsMat(b0, |w0|, 1)
      ensures Valid() && fresh(w) && fresh(b)
      ensures ToMat(w) == w0 && ToMat(b) == b0
    {
      w := new real[|w0|, Width(w0)]((i, j) requires 0 <= i < |w0| && 0 <= j < Width(w0) => w0[i][j]);
      b := new real[|w0|, 1]((i, j) requires 0 <= i < |w0| && 0 <= j < 1 => b0[i][j]);
      new;
      MatEq(ToMat(w), w0);
      MatEq(ToMat(b), b0);
    }

    /** `w.dot(input) + b`; the input is cached only when training. */
    method Forward(input: Mat, training: bool) returns (out: Mat, cache: LayerCache)
      requires Valid()
      requires |input| == w.Length1 && Rect(input)
      ensures IsMat(out, w.Length0, Width(input))
      ensures forall i, j :: 0 <= i < w.Length0 && 0 <= j < Width(input) ==>
                out[i][j] == DotCol(ToMat(w)[i], input, j) + b[i, 0]
      ensures cache == if training then [input] else []
      ensures training && Width(input) >= 1 ==> CacheFits(cache, w.Length1)
    {
      out := Affine(ToMat(w), input, ToMat(b));
      cache := [];
      if training {
        cache := cache + [input];
      }
    }

    /** For each neuron `i` the outer loop visits, sums every row of `grads` into
        `bias_grads[i]` and, times the cached input `a[k]`, into `w_grads[i, k]`.
        The outer loop runs over the columns of `w`, so only rows `i < nIn` of the
        gradients are filled and the rest stay zero; this is in bounds only when
        `w` has at least as many rows as columns. `w_grads` is both the gradient
        passed to the previous layer and the second entry of the parameter cache. */
    method Backward(grads: Mat, cacheForward: LayerCache) returns (up: Mat, paramGrads: LayerCache)
      requires Valid()
      requires CacheFits(cacheForward, w.Length1)
      requires w.Length1 <= w.Length0
      requires RowsCover(grads, w.Length1)
      ensures up == WeightGradient(cacheForward[0], grads, w.Length0, w.Length1)
      ensures paramGrads == [BiasGradient(grads, w.Length0, w.Length1), up]
      ensures GradsFit(paramGrads, w.Length0, w.Length1)
    {
      var a := cacheForward[0];
      var nOut, nIn := w.Length0, w.Length1;
      var biasGrads := new real[nOut, 1]((_, _) => 0.0);
      var wGrads := new real[nOut, nIn]((_, _) => 0.0);
      for i := 0 to nIn
        invariant forall i': nat :: i' < i ==> biasGrads[i', 0] == SumCol(grads, i', |grads|)
        invariant forall i': nat :: i <= i' < nOut ==> biasGrads[i', 0] == 0.0
        invariant forall i': nat, k: nat :: i' < i && k < nIn ==> wGrads[i', k] == WGradAt(a, grads, i', k, |grads|)
        invariant forall i': nat, k: nat :: i <= i' < nOut && k < nIn ==> wGrads[i', k] == 0.0
      {
        AccumulateNeuron(biasGrads, wGrads, a, grads, i);
      }
      up := ToMat(wGrads);
      WeightGradientFilled(wGrads, a, grads);
      var bias := ToMat(biasGrads);
      BiasGradientFilled(biasGrads, grads, nIn);
      paramGrads := [bias, up];
    }

    /** `w[i, j] -= lr * w_grads[i, j]` and `b[i] -= lr * bias_grads[i]` for every
        entry; nothing else changes. */
    method Update(learningRate: real, grads: LayerCache)
      requires Valid()
      requires GradsFit(grads, w.Length0, w.Length1)
      modifies w, b
      ensures forall i, j :: 0 <= i < w.Length0 && 0 <= j < w.Length1 ==>
                w[i, j] == old(w[i, j]) - learningRate * grads[1][i][j]
      ensures forall i :: 0 <= i < b.Length0 ==> b[i, 0] == old(b[i, 0]) - learningRate * grads[0][i][0]
    {
      var biasGrads := grads[0];
      var wGrads := grads[1];
      var rows, cols := w.Length0, w.Length1;
      for i := 0 to rows
        invariant forall i', j :: 0 <= i' < i && 0 <= j < cols ==>
                    w[i', j] == old(w[i', j]) - learningRate * wGrads[i'][j]
        invariant forall i', j :: i <= i' < rows && 0 <= j < cols ==> w[i', j] == old(w[i', j])
        invariant forall i' :: 0 <= i' < i ==> b[i', 0] == old(b[i', 0]) - learningRate * biasGrads[i'][0]
        invariant forall i' :: i <= i' < rows ==> b[i', 0] == old(b[i', 0])
      {
        SubtractScaledRow(w, i, learningRate, wGrads[i]);
        b[i, 0] := b[i, 0] - learningRate * biasGrads[i][0];
      }
    }
  }

  type Mat2 = array2<real>

  /** An array holding the closed form of each visited neuron's weight gradients,
      and zeros for the other rows, holds `WeightGradient`. */
  lemma WeightGradientFilled(wGrads: Mat2, a: Mat, grads: Mat)
    requires wGrads.Length1 <= wGrads.Length0
    requires forall i': nat, k: nat :: i' < wGrads.Length1 && k < wGrads.Length1 ==>
               wGrads[i', k] == WGradAt(a, grads, i', k, |grads|)
    requires forall i': nat, k: nat :: wGrads.Length1 <= i' < wGrads.Length0 && k < wGrads.Length1 ==>
               wGrads[i', k] == 0.0
    ensures ToMat(wGrads) == WeightGradient(a, grads, wGrads.Length0, wGrads.Length1)
  {
    MatEq(ToMat(wGrads), WeightGradient(a, grads, wGrads.Length0, wGrads.Length1));
  }

  /** The same for the bias gradients, the visited neurons being those below `nIn`. */
  lemma BiasGradientFilled(biasGrads: Mat2, grads: Mat, nIn: nat)
    requires biasGrads.Length1 == 1 && nIn <= biasGrads.Length0
    requires forall i': nat :: i' < nIn ==> biasGrads[i', 0] == SumCol(grads, i', |grads|)
    requires forall i': nat :: nIn <= i' < biasGrads.Length0 ==> biasGrads[i', 0] == 0.0
    ensures ToMat(biasGrads) == BiasGradient(grads, biasGrads.Length0, nIn)
  {
    MatEq(ToMat(biasGrads), BiasGradient(grads, biasGrads.Length0, nIn));
  }

  /** `m[i, j] -= lr * row[j]` along row `i` of `m`; every other row is unchanged. */
  method SubtractScaledRow(m: Mat2, i: nat, lr: real, row: seq<real>)
    requires i < m.Length0 && m.Length1 <= |row|
    modifies m
    ensures forall j :: 0 <= j < m.Length1 ==> m[i, j] == old(m[i, j]) - lr * row[j]
    ensures forall i', j :: 0 <= i' < m.Length0 && i' != i && 0 <= j < m.Length1 ==> m[i', j] == old(m[i', j])
  {
    for j := 0 to m.Length1
      invariant forall j' :: 0 <= j' < j ==> m[i, j'] == old(m[i, j']) - lr * row[j']
      invariant forall i', j' :: 0 <= i' < m.Length0 && 0 <= j' < m.Length1 && (i' != i || j <= j') ==>
                  m[i', j'] == old(m[i', j'])
    {
      m[i, j] := m[i, j] - lr * row[j];
    }
  }

  /** One pass of `backward`'s middle loop: adds row `row` of `grads` into the
      gradients of neuron `i`, leaving every other neuron's entries as they were. */
  method AddRow(biasGrads: Mat2, wGrads: Mat2, a: Mat, grads: Mat, i: nat, row: nat)
    requires biasGrads != wGrads && biasGrads.Length1 == 1
    requires i < biasGrads.Length0 == wGrads.Length0
    requires |a| <= wGrads.Length1 && RowsCover(a, 1)
    requires row < |grads| && i < |grads[row]|
    requires biasGrads[i, 0] == SumCol(grads, i, row)
    requires forall k: nat :: k < wGrads.Length1 ==> wGrads[i, k] == WGradAt(a, grads, i, k, row)
    modifies biasGrads, wGrads
    ensures biasGrads[i, 0] == SumCol(grads, i, row + 1)
    ensures forall k: nat :: k < wGrads.Length1 ==> wGrads[i, k] == WGradAt(a, grads, i, k, row + 1)
    ensures forall i': nat :: i' < biasGrads.Length0 && i' != i ==> biasGrads[i', 0] == old(biasGrads[i', 0])
    ensures forall i': nat, k: nat :: i' < wGrads.Length0 && k < wGrads.Length1 && i' != i ==>
              wGrads[i', k] == old(wGrads[i', k])
  {
    var g := grads[row];
    biasGrads[i, 0] := biasGrads[i, 0] + g[i] * 1.0;
    for k := 0 to |a|
      invariant biasGrads[i, 0] == SumCol(grads, i, row + 1)
      invariant forall i': nat :: i' < biasGrads.Length0 && i' != i ==> biasGrads[i', 0] == old(biasGrads[i', 0])
      invariant forall k': nat :: k' < k ==> wGrads[i, k'] == WGradAt(a, grads, i, k', row + 1)
      invariant forall k': nat :: k <= k' < wGrads.Length1 ==> wGrads[i, k'] == WGradAt(a, grads, i, k', row)
      invariant forall i': nat, k': nat :: i' < wGrads.Length0 && k' < wGrads.Length1 && i' != i ==>
                  wGrads[i', k'] == old(wGrads[i', k'])
    {
      wGrads[i, k] := wGrads[i, k] + a[k][0] * g[i];
    }
  }

  /** One pass of `backward`'s outer loop: every row of `grads` added into the
      (still zero) gradients of neuron `i`, other neurons untouched. */
  method AccumulateNeuron(biasGrads: Mat2, wGrads: Mat2, a: Mat, grads: Mat, i: nat)
    requires biasGrads != wGrads && biasGrads.Length1 == 1
    requires i < biasGrads.Length0 == wGrads.Length0
    requires |a| <= wGrads.Length1 && RowsCover(a, 1)
    requires RowsCover(grads, i + 1)
    requires biasGrads[i, 0] == 0.0
    requires forall k: nat :: k < wGrads.Length1 ==> wGrads[i, k] == 0.0
    modifies biasGrads, wGrads
    ensures biasGrads[i, 0] == SumCol(grads, i, |grads|)
    ensures forall k: nat :: k < wGrads.Length1 ==> wGrads[i, k] == WGradAt(a, grads, i, k, |grads|)
    ensures forall i': nat :: i' < biasGrads.Length0 && i' != i ==> biasGrads[i', 0] == old(biasGrads[i', 0])
    ensures forall i': nat, k: nat :: i' < wGrads.Length0 && k < wGrads.Length1 && i' != i ==>
              wGrads[i', k] == old(wGrads[i', k])
  {
    for row := 0 to |grads|
      invariant biasGrads[i, 0] == SumCol(grads, i, row)
      invariant forall k: nat :: k < wGrads.Length1 ==> wGrads[i, k] == WGradAt(a, grads, i, k, row)
      invariant forall i': nat :: i' < biasGrads.Length0 && i' != i ==> biasGrads[i', 0] == old(biasGrads[i', 0])
      invariant forall i': nat, k: nat :: i' < wGrads.Length0 && k < wGrads.Length1 && i' != i ==>
                  wGrads[i', k] == old(wGrads[i', k])
    {
      AddRow(biasGrads, wGrads, a, grads, i, row);
    }
  }

  /** The layer's unit test, forward step: `[0.5, 1]` through `w = [[2, 2], [2, 2]]`
      and `b = [0.1, 0.1]`. */
  method ExampleForward() returns (out: Mat, cache: LayerCache)
    ensures out == [[3.1], [3.1]] && cache == [[[0.5], [1.0]]]
  {
    var d := new DenseLayerNoActive([[2.0, 2.0], [2.0, 2.0]], [[0.1], [0.1]]);
    var input: Mat := [[0.5], [1.0]];
    assert DotCol([2.0, 2.0], input, 0) == 3.0 by {
      assert input[..1] == [[0.5]];
      assert input[..1][..0] == [];
    }
    out, cache := d.Forward(input, true);
    assert ToMat(d.w)[0] == [2.0, 2.0] && ToMat(d.w)[1] == [2.0, 2.0];
    assert d.b[0, 0] == ToMat(d.b)[0][0] == 0.1 && d.b[1, 0] == ToMat(d.b)[1][0] == 0.1;
    MatEq(out, [[3.1], [3.1]]);
  }

  /** The gradients of the unit test's backward step: two upstream rows of `3.1`
      against the cached input `[0.5, 1]`. */
  lemma ExampleGradients()
    ensures WeightGradient([[0.5], [1.0]], [[3.1, 3.1], [3.1, 3.1]], 2, 2) == [[3.1, 6.2], [3.1, 6.2]]
    ensures BiasGradient([[3.1, 3.1], [3.1, 3.1]], 2, 2) == [[6.2], [6.2]]
  {
    var grads: Mat := [[3.1, 3.1], [3.1, 3.1]];
    var a: Mat := [[0.5], [1.0]];
    assert SumCol(grads, 0, 2) == 6.2 && SumCol(grads, 1, 2) == 6.2;
    assert SumScaledCol(grads, 0, 0.5, 2) == 3.1 && SumScaledCol(grads, 0, 1.0, 2) == 6.2;
    assert SumScaledCol(grads, 1, 0.5, 2) == 3.1 && SumScaledCol(grads, 1, 1.0, 2) == 6.2;
    assert At(a[0], 0) == 0.5 && At(a[1], 0) == 1.0;
    MatEq(WeightGradient(a, grads, 2, 2), [[3.1, 6.2], [3.1, 6.2]]);
    MatEq(BiasGradient(grads, 2, 2), [[6.2], [6.2]]);
  }

  /** Backward step of the unit test, run on the layer. */
  method ExampleBackward() returns (up: Mat, paramGrads: LayerCache)
    ensures up == [[3.1, 6.2], [3.1, 6.2]]
    ensures paramGrads == [[[6.2], [6.2]], up]
  {
    var d := new DenseLayerNoActive([[2.0, 2.0], [2.0, 2.0]], [[0.1], [0.1]]);
    up, paramGrads := d.Backward([[3.1, 3.1], [3.1, 3.1]], [[[0.5], [1.0]]]);
    ExampleGradients();
  }

  /** Update step of the unit test: learning rate 0.1 against those gradients. */
  method ExampleUpdate() returns (w1: Mat, b1: Mat)
    ensures w1 == [[1.69, 1.38], [1.69, 1.38]] && b1 == [[-0.52], [-0.52]]
  {
    var d := new DenseLayerNoActive([[2.0, 2.0], [2.0, 2.0]], [[0.1], [0.1]]);
    assert d.w[0, 0] == ToMat(d.w)[0][0] && d.w[0, 1] == ToMat(d.w)[0][1];
    assert d.w[1, 0] == ToMat(d.w)[1][0] && d.w[1, 1] == ToMat(d.w)[1][1];
    assert d.b[0, 0] == ToMat(d.b)[0][0] && d.b[1, 0] == ToMat(d.b)[1][0];
    var grads: LayerCache := [[[6.2], [6.2]], [[3.1, 6.2], [3.1, 6.2]]];
    assert grads[1][0] == grads[1][1] == [3.1, 6.2] && grads[0][0] == grads[0][1] == [6.2];
    d.Update(0.1, grads);
    assert d.w[0, 0] == 1.69 && d.w[0, 1] == 1.38 && d.w[1, 0] == 1.69 && d.w[1, 1] == 1.38;
    assert d.b[0, 0] == -0.52 && d.b[1, 0] == -0.52;
    w1 := [[d.w[0, 0], d.w[0, 1]], [d.w[1, 0], d.w[1, 1]]];
    b1 := [[d.b[0, 0]], [d.b[1, 0]]];
  }
}
