/** The training driver's data handling: turning decoded MNIST files into input
    columns and labels, reading a class off a network output (`judge`), and
    counting correct predictions. The network itself, the epoch loop and all
    printing stay outside this model. */
module Driver {
  import opened Wrappers
  import opened Matrix
  import opened ArgMax
  import MnistLoader
  import CrossEntropyLoss

  /** The value `judge` starts its scan from. */
  const JUDGE_FLOOR: real := -999999.0

  /** Why `Mat::from_shape_vec` refused to build a matrix. */
  datatype ShapeError = IncompatibleShape(rows: nat, len: nat)

  /** The class `judge` reads off `result`: the scan's index over the entries in
      row-major order, cut to a `u8` as `i as u8` does. */
  function Judged(result: Mat): byte {
    (Scan(Flatten(result), JUDGE_FLOOR).0 % 256) as byte
  }

  /** `judge`: walks the entries keeping the greatest value seen, moving only on a
      strictly greater one. */
  method Judge(result: Mat) returns (idx: byte)
    ensures idx == Judged(result)
  {
    var xs := Flatten(result);
    var max := JUDGE_FLOOR;
    ghost var maxIdx: nat := 0;
    idx := 0;
    for i := 0 to |xs|
      invariant (maxIdx, max) == Scan(xs[..i], JUDGE_FLOOR)
      invariant idx as int == maxIdx % 256
    {
      assert xs[..i + 1][..i] == xs[..i];
      if xs[i] > max {
        max := xs[i];
        maxIdx := i;
        idx := (i % 256) as byte;
      }
    }
    assert xs[..|xs|] == xs;
  }

  /** With at most 256 entries, `judge` returns the first index of the strict
      maximum when that maximum exceeds the floor. */
  lemma JudgeFindsFirstMax(result: Mat, j: nat)
    requires |Flatten(result)| <= 256
    requires j < |Flatten(result)| && Flatten(result)[j] > JUDGE_FLOOR
    requires forall k :: 0 <= k < |Flatten(result)| ==> Flatten(result)[k] <= Flatten(result)[j]
    requires forall k :: 0 <= k < j ==> Flatten(result)[k] < Flatten(result)[j]
    ensures Judged(result) as int == j
  {
    ScanIndexUnique(Flatten(result), JUDGE_FLOOR, j);
  }

  /** When no entry exceeds the floor, `judge` returns 0. */
  lemma JudgeNoneAbove(result: Mat)
    requires forall k :: 0 <= k < |Flatten(result)| ==> Flatten(result)[k] <= JUDGE_FLOOR
    ensures Judged(result) == 0
  {
  }

  /** `l` is the `(10, 1)` label column the driver builds for the label `digit`:
      the one-hot column at `digit` for a digit below 10, and all zero otherwise. */
  predicate OneHotOf(l: Mat, digit: byte) {
    IsMat(l, 10, 1) &&
    if digit < 10 then CrossEntropyLoss.OneHotAt(l, digit as nat)
    else forall i :: 0 <= i < 10 ==> l[i][0] == 0.0
  }

  /** The one-hot loop of `load_train_data`: pushes 1 for the label's class and 0
      for every other class out of ten, then shapes the list as a column. */
  method LabelToOneHot(digit: byte) returns (l: Mat)
    ensures OneHotOf(l, digit)
  {
    var v: seq<real> := [];
    for i := 0 to 10
      invariant |v| == i
      invariant forall k :: 0 <= k < i ==> v[k] == if k == digit as int then 1.0 else 0.0
    {
      if i == digit as int {
        v := v + [1.0];
      } else {
        v := v + [0.0];
      }
    }
    l := Column(v);
  }

  /** `judge` recovers a label below 10 from its one-hot column. */
  lemma JudgeInvertsOneHot(l: Mat, digit: byte)
    requires OneHotOf(l, digit) && digit < 10
    ensures Judged(l) == digit
  {
    FlattenColumn(l);
    JudgeFindsFirstMax(l, digit as nat);
  }

  /** A label of 10 or more gives the zero column, from which `judge` reads 0: the
      first zero already beats the floor and no later one is greater. */
  lemma OneHotOutOfRange(l: Mat, digit: byte)
    requires OneHotOf(l, digit) && digit >= 10
    ensures forall i :: 0 <= i < 10 ==> l[i][0] == 0.0
    ensures Judged(l) == 0
  {
    FlattenColumn(l);
    JudgeFindsFirstMax(l, 0);
  }

  /** `v as f32 / u8::MAX as f32`: a grey level scaled into `[0, 1]`, 0 only for
      black and 1 only for white. */
  function ScalePixel(v: byte): (r: real)
    ensures 0.0 <= r <= 1.0
    ensures r == 0.0 <==> v == 0
    ensures r == 1.0 <==> v == 255
  {
    v as real / 255.0
  }

  /** Scaling keeps the order of grey levels, so distinct pixels stay distinct. */
  lemma ScalePixelMonotone(v: byte, w: byte)
    requires v < w
    ensures ScalePixel(v) < ScalePixel(w)
  {
  }

  /** `mat` is the `(numPx, 1)` column holding the scaled pixels of `pxs`. */
  predicate InputOf(mat: Mat, pxs: seq<byte>, numPx: nat) {
    |pxs| == numPx && IsMat(mat, numPx, 1) &&
    forall p :: 0 <= p < numPx ==> mat[p][0] == ScalePixel(pxs[p])
  }

  /** The image loop shared by `load_train_data` and `load_test_data`: scales each
      image's pixels and shapes them as a `(numPx, 1)` column, failing on the first
      image whose length is not `numPx`. */
  method ImagesToInputs(imgs: seq<seq<byte>>, numPx: nat) returns (r: Result<seq<Mat>, ShapeError>)
    ensures r.Err? <==> exists n :: 0 <= n < |imgs| && |imgs[n]| != numPx
    ensures r.Ok? ==> |r.value| == |imgs| && forall n :: 0 <= n < |imgs| ==> InputOf(r.value[n], imgs[n], numPx)
  {
    var datas: seq<Mat> := [];
    for n := 0 to |imgs|
      invariant |datas| == n
      invariant forall k :: 0 <= k < n ==> InputOf(datas[k], imgs[k], numPx)
    {
      var data := seq(|imgs[n]|, p requires 0 <= p < |imgs[n]| => ScalePixel(imgs[n][p]));
      if |data| != numPx {
        return Err(IncompatibleShape(numPx, |data|));
      }
      datas := datas + [Column(data)];
    }
    return Ok(datas);
  }

  /** What `load_train_data` and `load_test_data` need of the two files: both
      decode (they are unwrapped), and `rows * cols` fits in a `u32`. */
  predicate FilesLoadable(imgFile: seq<byte>, lblFile: seq<byte>) {
    MnistLoader.ImagesReadable(imgFile) && MnistLoader.DecodeImages(imgFile).Ok? &&
    MnistLoader.LabelsReadable(lblFile) && MnistLoader.ParseLabels(lblFile).Ok? &&
    MnistLoader.DecodeImages(imgFile).value.rows * MnistLoader.DecodeImages(imgFile).value.cols < 0x1_0000_0000
  }

  /** Every decoded image has `rows * cols` pixels, so shaping never fails and
      image `n` becomes input `n`. */
  method DecodedInputs(imgFile: seq<byte>) returns (imgs: seq<seq<byte>>, datas: seq<Mat>, numPx: nat)
    requires MnistLoader.ImagesReadable(imgFile) && MnistLoader.DecodeImages(imgFile).Ok?
    ensures imgs == MnistLoader.DecodeImages(imgFile).value.images
    ensures numPx == MnistLoader.DecodeImages(imgFile).value.rows * MnistLoader.DecodeImages(imgFile).value.cols
    ensures |datas| == |imgs| && forall n :: 0 <= n < |imgs| ==> InputOf(datas[n], imgs[n], numPx)
  {
    var parsed := MnistLoader.ParseImages(imgFile);
    var d := parsed.value;
    MnistLoader.DecodeImagesContents(imgFile);
    numPx := d.rows * d.cols;
    imgs := d.images;
    assert forall n :: 0 <= n < |imgs| ==> |imgs[n]| == numPx;
    var r := ImagesToInputs(imgs, numPx);
    datas := r.value;
  }

  /** `load_train_data`: every image as an input column, and every label as its
      one-hot column, in file order. */
  method LoadTrainData(imgFile: seq<byte>, lblFile: seq<byte>) returns (r: Result<(seq<Mat>, seq<Mat>), ShapeError>)
    requires FilesLoadable(imgFile, lblFile)
    ensures r.Ok?
    ensures var d := MnistLoader.DecodeImages(imgFile).value;
            |r.value.0| == |d.images| &&
            forall n :: 0 <= n < |d.images| ==> InputOf(r.value.0[n], d.images[n], d.rows * d.cols)
    ensures var labels := MnistLoader.ParseLabels(lblFile).value;
            |r.value.1| == |labels| && forall n :: 0 <= n < |labels| ==> OneHotOf(r.value.1[n], labels[n])
  {
    var imgs, datas, numPx := DecodedInputs(imgFile);
    var labels := MnistLoader.ParseLabels(lblFile).value;
    var rLabels: seq<Mat> := [];
    for n := 0 to |labels|
      invariant |rLabels| == n
      invariant forall k :: 0 <= k < n ==> OneHotOf(rLabels[k], labels[k])
    {
      var l := LabelToOneHot(labels[n]);
      rLabels := rLabels + [l];
    }
    return Ok((datas, rLabels));
  }

  /** `load_test_data`: every image as an input column, and the labels unchanged
      and in order. */
  method LoadTestData(imgFile: seq<byte>, lblFile: seq<byte>) returns (r: Result<(seq<Mat>, seq<byte>), ShapeError>)
    requires FilesLoadable(imgFile, lblFile)
    ensures r.Ok?
    ensures var d := MnistLoader.DecodeImages(imgFile).value;
            |r.value.0| == |d.images| &&
            forall n :: 0 <= n < |d.images| ==> InputOf(r.value.0[n], d.images[n], d.rows * d.cols)
    ensures r.value.1 == MnistLoader.ParseLabels(lblFile).value
  {
    var imgs, datas, numPx := DecodedInputs(imgFile);
    var labels := MnistLoader.ParseLabels(lblFile).value;
    var rLabels: seq<byte> := [];
    for n := 0 to |labels|
      invariant rLabels == labels[..n]
    {
      rLabels := rLabels + [labels[n]];
    }
    assert labels[..|labels|] == labels;
    return Ok((datas, rLabels));
  }

  /** How many of the first `n` results `judge` reads as their label. */
  function Correct(results: seq<Mat>, labels: seq<byte>, n: nat): (c: nat)
    requires n <= |results| <= |labels|
    ensures c <= n
  {
    if n == 0 then 0
    else Correct(results, labels, n - 1) + if Judged(results[n - 1]) == labels[n - 1] then 1 else 0
  }

  /** All of the first `n` results are counted correct exactly when `judge` reads
      each of them as its label. */
  lemma {:induction false} CorrectAll(results: seq<Mat>, labels: seq<byte>, n: nat)
    requires n <= |results| <= |labels|
    ensures Correct(results, labels, n) == n <==> forall i :: 0 <= i < n ==> Judged(results[i]) == labels[i]
  {
    if n > 0 {
      CorrectAll(results, labels, n - 1);
    }
  }

  /** None of the first `n` results is counted correct exactly when `judge` reads
      none of them as its label. */
  lemma {:induction false} CorrectNone(results: seq<Mat>, labels: seq<byte>, n: nat)
    requires n <= |results| <= |labels|
    ensures Correct(results, labels, n) == 0 <==> forall i :: 0 <= i < n ==> Judged(results[i]) != labels[i]
  {
    if n > 0 {
      CorrectNone(results, labels, n - 1);
    }
  }

  /** The counting of `print_rate`, given the network's output for each test input:
      every result is either accepted or wrong, and the accepted ones are those
      `judge` reads as their label. */
  method CountRate(results: seq<Mat>, labels: seq<byte>) returns (accept: nat, wrong: nat)
    requires |results| <= |labels|
    ensures accept + wrong == |results|
    ensures accept == Correct(results, labels, |results|)
  {
    accept := 0;
    wrong := 0;
    for i := 0 to |results|
      invariant accept + wrong == i
      invariant accept == Correct(results, labels, i)
    {
      var got := Judge(results[i]);
      var want := labels[i];
      if got == want {
        accept := accept + 1;
      } else {
        wrong := wrong + 1;
      }
    }
  }

  /** The accepted share in percent, as `print_rate` prints it. */
  function Rate(accept: nat, wrong: nat): (r: real)
    requires accept + wrong > 0
    ensures 0.0 <= r <= 100.0
    ensures r == 100.0 <==> wrong == 0
    ensures r == 0.0 <==> accept == 0
  {
    accept as real / (accept + wrong) as real * 100.0
  }
}
