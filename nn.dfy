/** The crate root: the layer cache type, `to_layer_cache` and the `sigmod`
    function, with `exp` abstracted to any function that is positive
    everywhere and maps 0 to 1. */
module Nn {
  import opened Matrix

  /** What one layer keeps between its forward and backward pass, or the
      parameter gradients its backward pass emits. */
  type LayerCache = seq<Mat>

  /** The laws of `exp` the model relies on; nothing else about it is assumed. */
  ghost predicate ExpLaws(f: real -> real) {
    (forall x :: f(x) > 0.0) && f(0.0) == 1.0
  }

  /** The exponential function, kept abstract. */
  type Exp = f: real -> real | ExpLaws(f) witness (x: real) => 1.0

  /** `ToLayerCache for Mat`: a one-element cache that holds exactly `m`. */
  function ToLayerCache(m: Mat): (c: LayerCache)
    ensures |c| == 1 && c[0] == m
  {
    [m]
  }

  /** `sigmod(x) = 1 / (1 + e^(-x))`, which always lies strictly between 0 and 1. */
  function Sigmod(exp: Exp, x: real): (r: real)
    ensures 0.0 < r < 1.0
  {
    1.0 / (1.0 + exp(-x))
  }

  /** The derivative of `sigmod`, written in terms of its output `out`. */
  function SigmodSlope(out: real): real {
    out * (1.0 - out)
  }

  /** `sigmod(0) == 0.5`, and its derivative there is `0.25`. */
  lemma SigmodAtZero(exp: Exp)
    ensures Sigmod(exp, 0.0) == 0.5
    ensures SigmodSlope(Sigmod(exp, 0.0)) == 0.25
  {
    assert exp(-0.0) == exp(0.0) == 1.0;
  }
}
