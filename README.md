# Hello-NN in Dafny

A model of the computational core of Hello-NN, a small feed-forward neural-network
trainer written in Rust on top of `ndarray`, trained on MNIST digits. The model
covers:

- the four layer types: the dense layer without activation, and the sigmoid
  (spelled `sigmod` in the source), ReLU and softmax layers, each with its forward
  pass, backward pass and update;
- the averaging of a mini-batch's gradient caches, and the paired shuffle of
  inputs and labels;
- the two loss accumulators, `CrossEntropy` and `MSE`;
- the IDX decoder of the MNIST loader;
- the data handling of the driver: pixel scaling, one-hot labels, `judge`, and
  the counting of `print_rate`.

Conventions:

- Matrices are row-major `seq<seq<real>>` with explicit shape predicates
  (`Matrix.IsMat`, `Matrix.SameShape`). `f32` arithmetic is modelled as exact real
  arithmetic.
- `exp` is a parameter of type `Nn.Exp`: any function that is positive everywhere
  and maps 0 to 1. Nothing else about it is assumed.
- A layer's `iter()` over a matrix is `Matrix.Flatten`, its entries in row-major
  order.
- Code that changes state step by step is imperative Dafny:
  - the dense layer is a class whose `w` and `b` are `array2<real>` fields, updated
    in place;
  - the accumulation loops of the backward passes, of gradient averaging, of the
    loss accumulators, of the IDX cursor and of the driver are loops with
    invariants, each proved against a specification function.
- The expression-only parts are functions: the activation forwards, softmax
  backward, `sigmod`, and MSE `grads` and `loss`.

Code behaviour kept as written:

- The dense layer's backward loop visits one neuron per *column* of `w`
  (`src/layer_impls/dense_no_active.rs:33`), while it fills rows of `bias_grads`
  and `w_grads`, which have one row per neuron (per *row* of `w`). It stays in
  bounds only when `w` has at least as many rows as columns and every upstream row
  has that many entries; these are the preconditions of
  `DenseLayerNoActive.Backward`. Rows from the column count upward keep gradient 0.
  The driver's own network breaks that condition. `main` stacks a dense layer
  from 784 to 256 neurons and one from 256 to 10
  (`src/bin/main.rs:13,15`). Their weights are 256×784 and 10×256, the shapes
  `w.dot(input)` requires. The loop therefore indexes `bias_grads[(256, 0)]` and
  `bias_grads[(10, 0)]`, so the first backward pass of either layer panics as
  written. The model's precondition excludes exactly that configuration.
- The dense backward returns `w_grads` itself as the gradient for the previous
  layer.
- The sigmoid backward returns an `(n, 1)` column, while the ReLU and softmax
  backwards transpose theirs to a `(1, n)` row.
- `judge` keeps its index as a `u8`, so an index of 256 or more is cut modulo 256
  (`Driver.Judged`).
- Softmax subtracts no maximum before `exp`.

## Model

| member | source | states |
|---|---|---|
| Nn.ToLayerCache | src/lib.rs:18-21 | the cache holds exactly one entry, the given matrix |
| Nn.Sigmod | src/lib.rs:38-41 | `1/(1+e^-x)` lies strictly between 0 and 1 for every `x` |
| Nn.SigmodAtZero | src/layer_impls/sigmod.rs:61-62 | `sigmod(0) == 0.5` and the derivative `out*(1-out)` there is `0.25` |
| DenseNoActive.DenseLayerNoActive.constructor | src/layer_impls/dense_no_active.rs:4-9 | a layer whose `w` and `b` arrays hold the given weights and biases, `b` a separate column with one entry per row of `w` |
| DenseNoActive.DenseLayerNoActive.Forward | src/layer_impls/dense_no_active.rs:12-21 | output has shape `(rows(w), cols(input))` and entry `(i, j)` is row `i` of `w` dotted with column `j` of the input plus `b[i]`; the cache is `[input]` when training and empty otherwise, and a training cache is one `backward` accepts |
| DenseNoActive.DenseLayerNoActive.Backward | src/layer_impls/dense_no_active.rs:26-49 | the upstream gradient is the weight gradient `w_grads[i,k] = Σ_rows g[i]*a[k]` for each neuron `i < cols(w)` and 0 in the other rows; the parameter cache is `[bias_grads, w_grads]` with `bias_grads[i] = Σ_rows g[i]` likewise; that cache has the format `update` accepts |
| DenseNoActive.AccumulateNeuron | src/layer_impls/dense_no_active.rs:35-42 | one outer iteration: neuron `i`'s bias and weight gradients become the full sums over the rows of `grads`; every other neuron's entries are unchanged |
| DenseNoActive.AddRow | src/layer_impls/dense_no_active.rs:37-41 | one middle iteration: adds one more upstream row into neuron `i`'s partial sums and touches no other neuron |
| DenseNoActive.WeightGradientIsOuterProduct | src/layer_impls/dense_no_active.rs:37-40 | each weight gradient is the cached input entry times that neuron's bias gradient, `w_grads[i,k] == a[k] * bias_grads[i]` |
| DenseNoActive.OnesRowGradient | src/layer_impls/dense_no_active.rs:23-25 | against a single upstream row of ones, the gradients are the derivatives of `w·a + b`: 1 for each bias and `a[k]` for each weight |
| DenseNoActive.DenseLayerNoActive.Update | src/layer_impls/dense_no_active.rs:51-62 | every `w[i,j]` decreases by `lr * w_grads[i,j]` and every `b[i]` by `lr * bias_grads[i]`; nothing else changes |
| DenseNoActive.SubtractScaledRow | src/layer_impls/dense_no_active.rs:57-59 | one row of `w` moves by `-lr` times the gradient row; every other row is unchanged |
| DenseNoActive.ExampleForward | src/layer_impls/dense_no_active.rs:77-84 | the unit test's forward step gives `[3.1, 3.1]` and caches the input |
| DenseNoActive.ExampleGradients | src/layer_impls/dense_no_active.rs:85-90 | the unit test's gradients: `w_grads == [[3.1, 6.2], [3.1, 6.2]]`, `bias_grads == [6.2, 6.2]` |
| DenseNoActive.ExampleBackward | src/layer_impls/dense_no_active.rs:85-90 | running `backward` on the unit test's layer returns those gradients |
| DenseNoActive.ExampleUpdate | src/layer_impls/dense_no_active.rs:91 | the unit test's update with rate 0.1 leaves `w == [[1.69, 1.38], [1.69, 1.38]]` and `b == [-0.52, -0.52]` |
| SigmodLayer.Forward | src/layer_impls/sigmod.rs:14-22 | same shape as the input, each entry `sigmod` of its input and strictly inside `(0, 1)`; caches `[out]` exactly when training |
| SigmodLayer.Backward | src/layer_impls/sigmod.rs:27-46 | an `(n, 1)` column whose entry `i` is `Σ_rows g[i]*out[i]*(1-out[i])` over the cached outputs; no parameter gradients |
| SigmodLayer.BackwardAfterForward | src/layer_impls/sigmod.rs:24-40 | on a training cache over a column `x`, the factor used for neuron `i` is the derivative of `sigmod` at `x[i]` |
| Matrix.ChainSumsFactor | src/layer_impls/sigmod.rs:35-42 | a neuron's accumulated chain-rule sum is its local derivative times the sum of its column of `grads` |
| SigmodLayer.ExampleForward | src/layer_impls/sigmod.rs:64-67 | the unit test: `[0, 0]` forwards to `[0.5, 0.5]` |
| SigmodLayer.ExampleBackward | src/layer_impls/sigmod.rs:68-70 | the unit test: upstream `[[0.5, 0.5]]` gives `[[0.125], [0.125]]` |
| ReLULayer.Forward | src/layer_impls/relu.rs:14-22 | same shape, each output non-negative, at least its input, and equal either to it or to 0; caches the input (not the output) exactly when training |
| ReLULayer.Backward | src/layer_impls/relu.rs:25-46 | a `(1, n)` row whose entry `i` is `Σ_rows g[i]*(input[i] > 0 ? 1 : 0)`; no parameter gradients |
| ReLULayer.BackwardAfterForward | src/layer_impls/relu.rs:24-40 | after a training forward, a neuron whose input was not positive passes back 0 and any other passes back the plain sum of its column of `grads` |
| ReLULayer.ExampleForward | src/layer_impls/relu.rs:62-63 | the unit test: `[0, 1]` forwards to itself and caches it |
| ReLULayer.ExampleBackward | src/layer_impls/relu.rs:64-66 | the unit test: upstream `[[0.5, 0.5]]` gives `[[0, 0.5]]` |
| SoftmaxLayer.ExpSum | src/layer_impls/softmax.rs:14 | the fold of `exp` over the entries is positive once there is an entry |
| SoftmaxLayer.Forward | src/layer_impls/softmax.rs:13-22 | same shape, every output positive; caches `[out]` exactly when training |
| SoftmaxLayer.OutputsSumToOne | src/layer_impls/softmax.rs:14-15 | the outputs over a non-empty input sum to exactly 1 |
| SoftmaxLayer.OutputsAreProbabilities | src/layer_impls/softmax.rs:14-15 | over a non-empty column every output lies in `(0, 1]` |
| SoftmaxLayer.Backward | src/layer_impls/softmax.rs:26-38 | a `(1, n)` row whose entry `i` is the cached output minus `grads[i]`; no parameter gradients |
| SoftmaxLayer.GradientSumsToZero | src/layer_impls/softmax.rs:24-35 | after a training forward, backward against a target summing to 1 gives gradients summing to 0 |
| SoftmaxLayer.Example | src/layer_impls/softmax.rs:56-59 | the unit test: against the one-hot `[0, 1, 0]` only the middle output loses 1 |
| ArgMax.Scan | src/loss_impls/cross_entropy.rs:18-25 | the scan's value is at least the floor and every entry; every entry before its index is strictly below it; it is either `(0, floor)` or an entry above the floor |
| ArgMax.ScanIndexUnique | src/loss_impls/cross_entropy.rs:20-25 | the scan stops exactly at the first index of a strict maximum above the floor |
| CrossEntropyLoss.CrossEntropy.constructor | src/loss_impls/cross_entropy.rs:9-11 | both counters start at 0 |
| CrossEntropyLoss.CrossEntropy.SumLoss | src/loss_impls/cross_entropy.rs:16-29 | `total` rises by exactly 1, `acc` by 1 exactly when the label holds 1 at the first strict maximum of the result, keeping `acc ≤ total` |
| CrossEntropyLoss.CrossEntropy.Loss | src/loss_impls/cross_entropy.rs:31-34 | `1 - acc/total` lies in `[0, 1]`, is 0 exactly when all predictions were correct and 1 exactly when none was |
| CrossEntropyLoss.CrossEntropy.Reset | src/loss_impls/cross_entropy.rs:41-43 | back to both counters 0, the state `new` builds |
| CrossEntropyLoss.GradsThroughSoftmax | src/loss_impls/cross_entropy.rs:36-39 | the label handed back as gradient becomes, through a softmax output layer, the row `p - y` of outputs minus label |
| CrossEntropyLoss.GradsThroughSoftmaxSigns | src/loss_impls/cross_entropy.rs:36-39 | against a one-hot label that row is positive for every other class and at most 0 for the labelled one |
| MseLoss.SquaredErrorZero | src/loss_impls/mse.rs:15-20 | the squared error a sample adds is never negative, and is 0 exactly when result equals label |
| MseLoss.MSE.constructor | src/loss_impls/mse.rs:9-11 | `sum = 0`, `total = 0` |
| MseLoss.MSE.SumLoss | src/loss_impls/mse.rs:15-20 | `sum` grows by the sample's squared error, so it never decreases and stays non-negative; `total` rises by exactly 1 |
| MseLoss.MSE.Loss | src/loss_impls/mse.rs:22-24 | `sum / total` is never negative |
| MseLoss.MSE.Reset | src/loss_impls/mse.rs:31-33 | back to `sum = 0`, `total = 0` |
| MseLoss.Grads | src/loss_impls/mse.rs:26-29 | a `(1, n)` row whose entry `i` is `2*(result[i] - label[i])` |
| MseLoss.GradsZero | src/loss_impls/mse.rs:26-29 | the gradient is the zero row exactly when result equals label |
| Util.SlotTotal | src/util.rs:51-63 | the running sum of one slot over the first samples keeps the first sample's shape |
| Util.AddLayer | src/util.rs:58-61 | adds one sample's layer into `base` slot by slot, each slot now summing one more sample; the other layers are unchanged and the layout is kept |
| Util.AddSample | src/util.rs:51-62 | after one more sample every slot of `base` is the sum over one more sample |
| Util.DivideSlots | src/util.rs:66-70 | every slot divided entry-wise by the count, layout kept |
| Util.CalcAllGradsAvg | src/util.rs:43-73 | empty for an empty batch; otherwise the first sample's layout, each slot the entry-wise sum over all samples divided by their number |
| Util.SlotTotalOfCopies | src/util.rs:147-158 | `n` copies of a gradient sum to `n` times it |
| Util.AverageSlotOfCopies | src/util.rs:147-158 | one slot of the average of identical samples is that sample's slot |
| Util.AverageOfCopies | src/util.rs:147-158 | averaging identical samples (a single sample in particular) returns that sample |
| Util.ExampleAverageOfCopies | src/util.rs:147-158 | the unit test: five copies average to the copy |
| Util.ExampleAverage | src/util.rs:129-145 | the unit test: the two samples average to `[[5.5, 11]], [[550, 550]]` and `[[55, 110]], [[0, 0]]` |
| Util.PermutationBounds | src/util.rs:78 | a permutation of `n` indices has `n` entries, all below `n` |
| Util.Permute | src/util.rs:78 | reordering puts item `perm[i]` at position `i` |
| Util.PermuteMultiset | src/util.rs:76-78 | reordering by a permutation keeps every item, as often as it occurred |
| Util.Shuffle | src/util.rs:75-86 | both outputs have the length of the common prefix; `ra[i] = a[perm[i]]` and `rb[i] = b[perm[i]]`, so pairs stay together; each output is a rearrangement of its input's prefix |
| Util.ExampleShuffleSame | src/util.rs:161-165 | the unit test: shuffling a sequence with itself gives two equal outputs |
| MnistLoader.BeU32 | mnist-data-loader/src/lib.rs:17-18 | a big-endian `u32` is below `2^32` |
| MnistLoader.BeI32 | mnist-data-loader/src/lib.rs:14-16 | a big-endian two's-complement `i32` lies in `[-2^31, 2^31)` |
| MnistLoader.ChunksPresent | mnist-data-loader/src/lib.rs:19-24 | `count` records of `size` bytes can be read exactly when `count*size` bytes are there; trailing bytes are ignored |
| MnistLoader.ChunksCount | mnist-data-loader/src/lib.rs:19-24 | a successful read yields exactly `count` records |
| MnistLoader.ChunksAt | mnist-data-loader/src/lib.rs:19-24 | record `n` is the bytes `[n*size, (n+1)*size)` |
| MnistLoader.Prepend | mnist-data-loader/src/lib.rs:19-24 | the records read so far followed by those still to read; present exactly when the rest is |
| MnistLoader.DecodeImagesErrors | mnist-data-loader/src/lib.rs:14-24 | images are refused with the magic number exactly when it is not 2051, and as truncated exactly when fewer than `count*rows*cols` bytes follow the 16-byte header |
| MnistLoader.DecodeImagesContents | mnist-data-loader/src/lib.rs:16-25 | on success rows and columns are the header's, there are `count` images, and image `n` is `data[16+n*r*c .. 16+(n+1)*r*c]` |
| MnistLoader.ParseImages | mnist-data-loader/src/lib.rs:9-26 | the cursor loop returns exactly the decoded image file, errors included |
| MnistLoader.ReadOne | mnist-data-loader/src/lib.rs:21-23 | reading one record moves it from the unread records to the end of those read |
| MnistLoader.ParseLabels | mnist-data-loader/src/lib.rs:28-39 | refused exactly on a wrong magic number (not 2049) or fewer than `count` label bytes, the former as `BadMagic`; otherwise exactly `data[8 .. 8+count]` |
| Driver.Judge | src/bin/main.rs:127-137 | the loop returns the scan's first strict maximum above −999999, cut to a `u8` |
| Driver.JudgeFindsFirstMax | src/bin/main.rs:127-137 | with at most 256 entries, `judge` returns the first index of a strict maximum above the floor |
| Driver.JudgeNoneAbove | src/bin/main.rs:127-137 | with no entry above the floor, `judge` returns 0 |
| Driver.LabelToOneHot | src/bin/main.rs:82-93 | a `(10, 1)` column with 1 at the label's row and 0 elsewhere |
| Driver.JudgeInvertsOneHot | src/bin/main.rs:82-93 | for a label below 10, `judge` reads the label back from its one-hot column |
| Driver.OneHotOutOfRange | src/bin/main.rs:84-90 | a label of 10 or more gives the zero column, read back by `judge` as 0 |
| Driver.ScalePixel | src/bin/main.rs:74-77 | every grey level maps into `[0, 1]`, to 0 only from 0 and to 1 only from 255 |
| Driver.ScalePixelMonotone | src/bin/main.rs:76 | scaling keeps the order of grey levels |
| Driver.ImagesToInputs | src/bin/main.rs:72-80 | fails exactly when some image does not have `rows*cols` pixels; otherwise input `n` is image `n`'s scaled pixels as a column |
| Driver.DecodedInputs | src/bin/main.rs:64-80 | the decoded images all have `rows*cols` pixels, so shaping succeeds and input `n` is image `n` scaled |
| Driver.LoadTrainData | src/bin/main.rs:60-96 | one input column per image and one one-hot column per label, in file order |
| Driver.LoadTestData | src/bin/main.rs:98-125 | one input column per image; the labels unchanged and in order |
| Driver.Correct | src/bin/main.rs:43-55 | the number of results `judge` reads as their label never exceeds the number of results looked at |
| Driver.CorrectAll | src/bin/main.rs:43-55 | every result counts as correct exactly when `judge` reads each as its label |
| Driver.CorrectNone | src/bin/main.rs:43-55 | no result counts as correct exactly when `judge` reads none as its label |
| Driver.CountRate | src/bin/main.rs:39-55 | `accept + wrong` is the number of results, and `accept` is the number `judge` reads as their label |
| Driver.Rate | src/bin/main.rs:56 | the percentage lies in `[0, 100]`, is 100 exactly when nothing was wrong and 0 exactly when nothing was accepted |

## Left out

- `f32` arithmetic: rounding, overflow, NaN and infinity are not modelled; arithmetic is exact over the reals. So the `f32` literals of the softmax test (`src/layer_impls/softmax.rs:57`) and the overflow of `exp` without subtracting the maximum are not captured. `SoftmaxLayer.Example` states the test's backward relation instead of its literals.
- `exp` is abstract: only `exp(x) > 0` and `exp(0) = 1` are used.
- CrossEntropyLoss.CrossEntropy.Loss: requires `total > 0`; with no sample the source divides 0 by 0 and returns NaN.
- MseLoss.MSE.Loss: requires `total > 0`, for the same reason.
- Driver.Rate: requires a non-zero count, for the same reason.
- ndarray broadcasting: `w.dot(input) + b`, `label - result` and the like are modelled for operands of matching shapes only; other shapes either broadcast to a different result (an `(n, 1)` minus a `(1, n)` gives an `(n, n)` matrix) or panic in the source; both are excluded by preconditions.
- Panics become preconditions rather than error values. These are:
  - an index out of bounds in the backward loops (`DenseLayerNoActive.Backward`, `SigmodLayer.Backward`, `ReLULayer.Backward`);
  - a cache that is too short;
  - a header shorter than 16 (images) or 8 (labels) bytes;
  - a negative count;
  - a `u32` overflow of `rows * cols`;
  - the `unwrap` of the parse results in the driver;
  - a label list shorter than the results in `print_rate`;
  - a label with fewer rows than the index `sum_loss` picks from the result (`label[(max_idx, 0)]`, `CrossEntropyLoss.CrossEntropy.SumLoss`).
- Randomness: the shuffle's permutation is a parameter (`Util.Shuffle`). `DistCustomWrap` and the random initialisation of `push_dense_*_layer` are not part of this model. `DenseLayerNoActive::new_with` and `NeuralNetworkModel::push_layer`, which they call, are not modelled.
- `NeuralNetworkModel` (`new`, `fit`, `predict`, `minimize`) and the `Loss` and `Layer` traits' dispatch are not part of this model. The driver's predictions are therefore a parameter of `Driver.CountRate`.
- CrossEntropyLoss.Grads: has no contract of its own. It returns the label and ignores the result, and is used through `CrossEntropyLoss.GradsThroughSoftmax`.
- The activation layers' `new` and `update`: these layers hold no state, so construction and the no-op update have nothing to model. Their backward passes return an empty parameter cache, as the contracts state.
- I/O is not modelled: opening files, `read_to_end`, `println!`, `pause` and `to_img_buf`. The loader works on the whole file as a byte sequence.
- The epoch loop, batching by `chunks` and the call of `shuffle` in `main` are not modelled.
- `usize` and `i32` counter overflow is not modelled (`acc`, `total`, `accept`, `wrong` are unbounded).
- `tests/test_ndarray.rs` and `src/layer_impls/mod.rs` hold no core logic and are not modelled.
