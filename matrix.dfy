/** Row-major matrices of reals: the model of `Mat` (an `ndarray` `Array2<f32>`)
    and of the few `ndarray` operations the network uses. Arithmetic is exact;
    f32 rounding is not modelled. */
module Matrix {

  type Mat = seq<seq<real>>

  /** `m` has `r` rows of `c` entries each. */
  predicate IsMat(m: Mat, r: nat, c: nat) {
    |m| == r && forall i :: 0 <= i < |m| ==> |m[i]| == c
  }

  /** The number of columns, read off the first row (0 for a matrix without rows). */
  function Width(m: Mat): nat {
    if |m| == 0 then 0 else |m[0]|
  }

  /** Every row has the same length, as in every `ndarray` matrix. */
  predicate Rect(m: Mat) {
    IsMat(m, |m|, Width(m))
  }

  predicate SameShape(a: Mat, b: Mat) {
    |a| == |b| && forall i :: 0 <= i < |a| ==> |a[i]| == |b[i]|
  }

  /** Every row of `g` has at least `n` entries, so that `g[row][i]` exists for `i < n`. */
  predicate RowsCover(g: Mat, n: nat) {
    forall row :: 0 <= row < |g| ==> n <= |g[row]|
  }

  /** A column vector of shape `(|xs|, 1)`. */
  function Column(xs: seq<real>): (m: Mat)
    ensures IsMat(m, |xs|, 1)
    ensures forall i :: 0 <= i < |xs| ==> m[i][0] == xs[i]
  {
    seq(|xs|, i requires 0 <= i < |xs| => [xs[i]])
  }

  /** The entries of `m` in row-major order: what `ndarray`'s `iter()` visits. */
  function Flatten(m: Mat): seq<real> {
    if |m| == 0 then [] else Flatten(m[..|m| - 1]) + m[|m| - 1]
  }

  /** Left-to-right sum, as `fold(0., |acc, x| acc + x)` computes it. */
  function Sum(xs: seq<real>): real {
    if |xs| == 0 then 0.0 else Sum(xs[..|xs| - 1]) + xs[|xs| - 1]
  }

  /** Entry `i` of `row`, read as 0 where the row is too short. */
  function At(row: seq<real>, i: nat): real {
    if i < |row| then row[i] else 0.0
  }

  /** Sum of entry `i` over the first `n` rows of `g`. Every caller reads it
      only where those rows have an entry `i`. */
  function SumCol(g: Mat, i: nat, n: nat): real
    requires n <= |g|
  {
    if n == 0 then 0.0 else SumCol(g, i, n - 1) + At(g[n - 1], i)
  }

  /** Sum of `x * g[row][i]` over the first `n` rows of `g`. */
  function SumScaledCol(g: Mat, i: nat, x: real, n: nat): real
    requires n <= |g|
  {
    if n == 0 then 0.0 else SumScaledCol(g, i, x, n - 1) + x * At(g[n - 1], i)
  }

  /** A common factor comes out of the sum. */
  lemma {:induction false} SumScaledColFactor(g: Mat, i: nat, x: real, n: nat)
    requires n <= |g|
    ensures SumScaledCol(g, i, x, n) == x * SumCol(g, i, n)
  {
    if n > 0 {
      SumScaledColFactor(g, i, x, n - 1);
    }
  }

  /** Entry `i` is `factors[i] * g[row][i]` summed over every row of `g`, added up
      row by row: the chain rule for a layer whose neuron `i` has local
      derivative `factors[i]` and one outgoing edge per row of `g`. */
  function ChainSums(factors: seq<real>, g: Mat): (r: seq<real>)
    ensures |r| == |factors|
  {
    seq(|factors|, i requires 0 <= i < |factors| => SumScaledCol(g, i, factors[i], |g|))
  }

  /** Chain sum `i` is the local derivative times the summed upstream gradient. */
  lemma ChainSumsFactor(factors: seq<real>, g: Mat, i: nat)
    requires i < |factors|
    ensures ChainSums(factors, g)[i] == factors[i] * SumCol(g, i, |g|)
  {
    SumScaledColFactor(g, i, factors[i], |g|);
  }

  /** Entry-wise map, as `ndarray`'s `map`. */
  function MapMat(m: Mat, f: real -> real): (r: Mat)
    ensures SameShape(r, m)
    ensures forall i, j :: 0 <= i < |m| && 0 <= j < |m[i]| ==> r[i][j] == f(m[i][j])
  {
    seq(|m|, i requires 0 <= i < |m| => seq(|m[i]|, j requires 0 <= j < |m[i]| => f(m[i][j])))
  }

  /** `a + b` on equal shapes. */
  function Add(a: Mat, b: Mat): (r: Mat)
    requires SameShape(a, b)
    ensures SameShape(r, a)
    ensures forall i, j :: 0 <= i < |a| && 0 <= j < |a[i]| ==> r[i][j] == a[i][j] + b[i][j]
  {
    seq(|a|, i requires 0 <= i < |a| => seq(|a[i]|, j requires 0 <= j < |a[i]| => a[i][j] + b[i][j]))
  }

  /** `a - b` on equal shapes. */
  function Sub(a: Mat, b: Mat): (r: Mat)
    requires SameShape(a, b)
    ensures SameShape(r, a)
    ensures forall i, j :: 0 <= i < |a| && 0 <= j < |a[i]| ==> r[i][j] == a[i][j] - b[i][j]
  {
    seq(|a|, i requires 0 <= i < |a| => seq(|a[i]|, j requires 0 <= j < |a[i]| => a[i][j] - b[i][j]))
  }

  /** `m * s` with a scalar `s`. */
  function Scale(m: Mat, s: real): (r: Mat)
    ensures SameShape(r, m)
    ensures forall i, j :: 0 <= i < |m| && 0 <= j < |m[i]| ==> r[i][j] == m[i][j] * s
  {
    seq(|m|, i requires 0 <= i < |m| => seq(|m[i]|, j requires 0 <= j < |m[i]| => m[i][j] * s))
  }

  /** `m / d` with a non-zero scalar `d`. */
  function Div(m: Mat, d: real): (r: Mat)
    requires d != 0.0
    ensures SameShape(r, m)
    ensures forall i, j :: 0 <= i < |m| && 0 <= j < |m[i]| ==> r[i][j] == m[i][j] / d
  {
    seq(|m|, i requires 0 <= i < |m| => seq(|m[i]|, j requires 0 <= j < |m[i]| => m[i][j] / d))
  }

  /** The transpose of an `(|m|, c)` matrix, of shape `(c, |m|)`. */
  function Transpose(m: Mat, c: nat): (t: Mat)
    requires IsMat(m, |m|, c)
    ensures IsMat(t, c, |m|)
    ensures forall j, i :: 0 <= j < c && 0 <= i < |m| ==> t[j][i] == m[i][j]
  {
    seq(c, j requires 0 <= j < c => seq(|m|, i requires 0 <= i < |m| => m[i][j]))
  }

  /** `sum_k row[k] * x[k][j]`: one entry of a matrix product. */
  function DotCol(row: seq<real>, x: Mat, j: nat): real
    requires |x| <= |row| && RowsCover(x, j + 1)
  {
    if |x| == 0 then 0.0
    else DotCol(row, x[..|x| - 1], j) + row[|x| - 1] * x[|x| - 1][j]
  }

  /** `w.dot(x) + b`, with the column `b` broadcast over the columns of `x`. */
  function Affine(w: Mat, x: Mat, b: Mat): (r: Mat)
    requires IsMat(w, |w|, |x|) && Rect(x) && IsMat(b, |w|, 1)
    ensures IsMat(r, |w|, Width(x))
    ensures forall i, j :: 0 <= i < |w| && 0 <= j < Width(x) ==> r[i][j] == DotCol(w[i], x, j) + b[i][0]
  {
    seq(|w|, i requires 0 <= i < |w| => seq(Width(x), j requires 0 <= j < Width(x) => DotCol(w[i], x, j) + b[i][0]))
  }

  /** The contents of a two-dimensional array as a matrix. */
  function ToMat(a: array2<real>): (m: Mat)
    reads a
    ensures IsMat(m, a.Length0, a.Length1)
    ensures forall i, j :: 0 <= i < a.Length0 && 0 <= j < a.Length1 ==> m[i][j] == a[i, j]
  {
    seq(a.Length0, i requires 0 <= i < a.Length0 reads a =>
      seq(a.Length1, j requires 0 <= j < a.Length1 reads a => a[i, j]))
  }

  /** Two matrices of the same shape with the same entries are equal. */
  lemma MatEq(a: Mat, b: Mat)
    requires SameShape(a, b)
    requires forall i, j :: 0 <= i < |a| && 0 <= j < |a[i]| ==> a[i][j] == b[i][j]
    ensures a == b
  {
    forall i | 0 <= i < |a| ensures a[i] == b[i] {
    }
  }

  /** The flattening of a column is its entries. */
  lemma {:induction false} FlattenColumn(m: Mat)
    requires IsMat(m, |m|, 1)
    ensures |Flatten(m)| == |m|
    ensures forall i :: 0 <= i < |m| ==> Flatten(m)[i] == m[i][0]
  {
    if |m| > 0 {
      FlattenColumn(m[..|m| - 1]);
    }
  }

  /** A row with an entry puts an entry into the flattening. */
  lemma {:induction false} FlattenNonEmpty(m: Mat, i: nat)
    requires i < |m| && |m[i]| > 0
    ensures |Flatten(m)| > 0
  {
    if i < |m| - 1 {
      FlattenNonEmpty(m[..|m| - 1], i);
    }
  }

  /** Flattening commutes with an entry-wise relation `r[i][j] == f(m[i][j])`. */
  lemma {:induction false} FlattenPointwise(m: Mat, r: Mat, f: real -> real)
    requires SameShape(r, m)
    requires forall i, j :: 0 <= i < |m| && 0 <= j < |m[i]| ==> r[i][j] == f(m[i][j])
    ensures |Flatten(r)| == |Flatten(m)|
    ensures forall k :: 0 <= k < |Flatten(m)| ==> Flatten(r)[k] == f(Flatten(m)[k])
  {
    if |m| > 0 {
      FlattenPointwise(m[..|m| - 1], r[..|r| - 1], f);
    }
  }

  /** The sum of an entry-wise difference is the difference of the sums. */
  lemma {:induction false} SumSub(xs: seq<real>, ys: seq<real>, zs: seq<real>)
    requires |xs| == |ys| == |zs|
    requires forall k :: 0 <= k < |zs| ==> zs[k] == xs[k] - ys[k]
    ensures Sum(zs) == Sum(xs) - Sum(ys)
  {
    if |zs| > 0 {
      SumSub(xs[..|xs| - 1], ys[..|ys| - 1], zs[..|zs| - 1]);
    }
  }

  /** A sum of non-negative terms is non-negative, is zero exactly when every term
      is zero, and bounds each of its terms. */
  lemma {:induction false} SumNonNegative(xs: seq<real>)
    requires forall k :: 0 <= k < |xs| ==> xs[k] >= 0.0
    ensures Sum(xs) >= 0.0
    ensures Sum(xs) == 0.0 <==> forall k :: 0 <= k < |xs| ==> xs[k] == 0.0
    ensures forall k :: 0 <= k < |xs| ==> xs[k] <= Sum(xs)
  {
    if |xs| > 0 {
      SumNonNegative(xs[..|xs| - 1]);
    }
  }

  /** Every entry of `m` occurs in its flattening. */
  lemma {:induction false} FlattenHas(m: Mat, i: nat, j: nat)
    requires i < |m| && j < |m[i]|
    ensures m[i][j] in Flatten(m)
  {
    if i < |m| - 1 {
      FlattenHas(m[..|m| - 1], i, j);
    } else {
      assert Flatten(m)[|Flatten(m[..|m| - 1])| + j] == m[i][j];
    }
  }

  /** The square of a non-zero real is positive. */
  lemma SquarePositive(d: real)
    ensures d != 0.0 ==> d * d > 0.0
  {
    if d > 0.0 {
      assert d * d > 0.0;
    } else if d < 0.0 {
      assert d * d > 0.0;
    }
  }

  /** Dividing `d * x` by a non-zero `d` gives back `x`. */
  lemma MulDivCancel(t: real, x: real, d: real)
    requires d != 0.0 && t == d * x
    ensures t / d == x
  {
  }
}
