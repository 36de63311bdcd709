/** `CrossEntropy`: the loss used with a softmax output layer. It only counts how
    often the largest output lands on the labelled class; its gradient is the
    label itself, which the softmax layer turns into `p - y`. */
module CrossEntropyLoss {
  import opened Matrix
  import opened Nn
  import opened ArgMax
  import SoftmaxLayer

  /** `f32::MIN`, the value the scan starts from. */
  const F32_MIN: real := -340282346638528859811704183484516925440.0

  /** The class `sum_loss` predicts: the first index of the strict maximum of the
      result's entries in row-major order (0 if none exceeds `f32::MIN`). */
  function Predicted(result: Mat): nat {
    Scan(Flatten(result), F32_MIN).0
  }

  class CrossEntropy {
    var acc: nat
    var total: nat

    /** Never more correct predictions than predictions. */
    ghost predicate Valid()
      reads this
    {
      acc <= total
    }

    /** Both counters start at zero. */
    constructor ()
      ensures Valid() && acc == 0 && total == 0
    {
      acc := 0;
      total := 0;
    }

    /** Counts one more prediction, and one more correct prediction exactly when the
        label holds 1 at the predicted class. The label must have that entry. */
    method SumLoss(result: Mat, target: Mat)
      requires Valid()
      requires Predicted(result) < |target| && |target[Predicted(result)]| >= 1
      modifies this
      ensures Valid()
      ensures total == old(total) + 1
      ensures acc == old(acc) + if target[Predicted(result)][0] == 1.0 then 1 else 0
    {
      total := total + 1;
      var xs := Flatten(result);
      var maxIdx: nat := 0;
      var maxV := F32_MIN;
      for i := 0 to |xs|
        invariant (maxIdx, maxV) == Scan(xs[..i], F32_MIN)
      {
        assert xs[..i + 1][..i] == xs[..i];
        if xs[i] > maxV {
          maxIdx := i;
          maxV := xs[i];
        }
      }
      assert xs[..|xs|] == xs;
      if target[maxIdx][0] == 1.0 {
        acc := acc + 1;
      }
    }

    /** `1 - acc / total`: the error rate, between 0 and 1; 0 exactly when every
        prediction was correct and 1 exactly when none was. */
    function Loss(): (r: real)
      reads this
      requires Valid() && total > 0
      ensures 0.0 <= r <= 1.0
      ensures r == 0.0 <==> acc == total
      ensures r == 1.0 <==> acc == 0
    {
      1.0 - acc as real / total as real
    }

    /** Back to the state `new` builds. */
    method Reset()
      modifies this
      ensures Valid() && acc == 0 && total == 0
    {
      acc := 0;
      total := 0;
    }
  }

  /** The gradient handed to the last layer: the label, whatever the result. */
  function Grads(result: Mat, target: Mat): Mat {
    target
  }

  /** A column whose entries are 1 at `l` and 0 elsewhere. */
  predicate OneHotAt(t: Mat, l: nat) {
    IsMat(t, |t|, 1) && l < |t| && forall k :: 0 <= k < |t| ==> t[k][0] == if k == l then 1.0 else 0.0
  }

  /** The loss's gradient through a softmax output layer is `p - y`: after a
      training forward pass over a column `x`, backward against the label `t`
      gives the row of differences between the outputs and the label. */
  lemma GradsThroughSoftmax(exp: Exp, x: Mat, t: Mat)
    requires IsMat(x, |x|, 1) && IsMat(t, |x|, 1)
    ensures var out := SoftmaxLayer.Forward(exp, x, true);
            var g := SoftmaxLayer.Backward(Grads(out.0, t), out.1).0;
            && IsMat(g, 1, |x|)
            && forall k :: 0 <= k < |x| ==> g[0][k] == out.0[k][0] - t[k][0]
  {
  }

  /** Against a one-hot label at `l`, that gradient is positive for every other
      class and at most zero for the labelled one, so a descent step raises the
      labelled output and lowers the rest. */
  lemma GradsThroughSoftmaxSigns(exp: Exp, x: Mat, t: Mat, l: nat)
    requires IsMat(x, |x|, 1) && |t| == |x| && OneHotAt(t, l)
    ensures var out := SoftmaxLayer.Forward(exp, x, true);
            var g := SoftmaxLayer.Backward(Grads(out.0, t), out.1).0;
            && (forall k :: 0 <= k < |x| && k != l ==> g[0][k] > 0.0)
            && g[0][l] <= 0.0
  {
    GradsThroughSoftmax(exp, x, t);
    SoftmaxLayer.OutputsAreProbabilities(exp, x, true);
  }
}
