# infer: a Dafny model of the inference pipeline's pure logic

`infer` runs a pre-trained TensorFlow graph on an encoded image. This project
models the deterministic decisions the library makes around its TensorFlow
calls, and proves properties of them:

- **Model descriptor** (`infer.dfy`, module `Infer`). `New` admits a `Model`
  only when both layers are present and both keys are non-empty. It returns
  the same descriptor unchanged.
- **Image pipeline** (`Infer.FromImageCore`, the source's `fromImage`). It works
  in this order:
  1. copy the image stream;
  2. sniff the format;
  3. wrap the bytes in a string tensor;
  4. choose the PNG or JPEG decoder;
  5. build and finalize a resize subgraph (a `ResizePlan`) with one
     full-image box `[0, 0, 1, 1]`, box index 0, the input layer's
     dimensions as crop size, a batch axis at 0, and 1 or 3 channels;
  6. run that subgraph in its own session;
  7. evaluate the model graph (`eval`).

  The run stops at the first stage that fails and returns no result. Every
  TensorFlow and image-library call is a function-valued field of a
  `Runtime`. This treats each foreign call as a deterministic function of
  its arguments; nothing else is assumed about what it returns. An
  `Evaluation` records the result and the stages that completed.
- **Prediction ranking** (`predictions.dfy`, module `Predictions`).
  `Predictions` implements `sort.Interface` through `Len`, `Less` and
  `Swap`. A selection sort that uses only those three members, either as
  they are or reversed like `sort.Reverse`, returns a permutation of its
  input whose scores never decrease (or never increase). Nothing is promised
  about the order of equal scores.
- **Tensor to image** (`tensor_image.dfy`, module `TensorImage`, the
  source's `internal.TensorToImage`). Only rank 3 and rank 4 are accepted.
  The method reads (w, h, c), skipping the batch dimension of rank 4. c = 1
  gives a Gray image, c = 3 an RGBA image, and any other c is
  `ErrInvalidImageTensor`. The image has bounds (0, 0)-(w, h). The copy loop
  stores data element `[y][x]` through `Set`, which ignores points outside
  the bounds. The source names the first spatial dimension `w` but the loop
  uses it as the row index; the model keeps this quirk (see Findings).

`wrappers.dfy` holds the shared `Option` (a nil-able pointer) and `Result`
(Go's value-or-error pair).

Two behaviours of the code that are easy to misread:
- `Predictions` provides only `sort.Interface`, and its callers rank with
  `sort.Sort(sort.Reverse(...))`, which is not stable. No order among equal
  scores is promised; only the sequence of scores is determined.
- The error of `image.Decode` is passed through unchanged. Only a sniffed
  format other than "png" or "jpeg" raises the library's own "invalid image"
  error.

## Model

| member | source | states |
|---|---|---|
| Infer.New | infer.go:44-54 | `New` succeeds exactly when both layers are present and both keys are non-empty. On success it returns the very descriptor it was given. Otherwise the error is `ErrValidInputOutputRequired`. |
| Infer.NewIdempotent | infer.go:53 | A descriptor `New` admitted is admitted again, unchanged. |
| Infer.NewIgnoresGraphAndLabels | infer.go:44-54 | Graph and labels are never checked: only the layers decide whether `New` succeeds. |
| Infer.Channels | infer.go:114-117 | The decode channel count is 1 exactly when `IsGray` is set, and 3 otherwise. |
| Infer.ChannelsMatchImageKind | infer.go:114-117 | A tensor decoded with the chosen channel count reads back as Gray exactly when `IsGray` was set, and as RGBA otherwise. |
| Infer.SelectDecoder | infer.go:121-130 | "png" selects the PNG decoder and "jpeg" the JPEG decoder. Any other format name is the "invalid image" error. |
| Infer.SelectDecoderRoundTrip | infer.go:121-127 | Choosing a decoder and naming its format are inverse to each other. |
| Infer.BuildPlan | infer.go:137-151 | The resize subgraph has the chosen decoder and channel count, a batch axis at 0, exactly one box equal to [0,0,1,1], box index [0], and crop size equal to the input layer's dimensions. |
| Infer.Eval | infer.go:185-201 | `eval` creates a session on the model's graph. If that fails, its error is returned and no stage completed. Otherwise it feeds the input to the input layer's key and fetches the output layer's key: a failure returns that error after the session stage, and a success returns exactly the fetched tensor with both stages completed. |
| Infer.FromImageCore | infer.go:90-182 | The completed stages are always a prefix of the fixed stage order. The run succeeds exactly when every stage completed. "Invalid image" is returned exactly when the decoder choice is the failing stage. Every other error comes from a foreign call. A failed read is returned unchanged before any stage. A success implies the read, the sniff, the string tensor, the decoder choice and the model session all succeeded. |
| Infer.FromImageStopsAtFirstFailure | infer.go:94-179 | At each stage, a failure is returned verbatim with no result, and no later stage runs. When the resize run succeeds, the whole evaluation is `eval`'s on the resized image, with `eval`'s stages appended to the first seven. The resize subgraph is `BuildPlan`'s. |
| Infer.UnknownFormatCreatesNoSession | infer.go:100-130 | "Invalid image" is returned exactly when reading, sniffing and tensor creation succeed but the format is neither "png" nor "jpeg". In that case no resize graph is finalized and no session is created. |
| Infer.SuccessRunsModel | infer.go:175-181 | A successful run read and sniffed a png or jpeg image, and every stage succeeded, including the session on the model's graph. Its result is exactly what running the model, with the input and output layers' keys, returns for the resized image, and every stage completed. |
| Predictions.Len | prediction.go:12-14 | `Len` is the number of predictions. It is 0 exactly for the empty list. |
| Predictions.Less | prediction.go:20-22 | `Less(i, j)` holds exactly when the score at i is strictly below the score at j. |
| Predictions.LessIsStrictWeakOrder | prediction.go:20-22 | `Less` is irreflexive, asymmetric and transitive. Two positions neither of which is less than the other hold equal scores. |
| Predictions.LessBy | examples/inception/main.go:41 | The ascending comparator is `Less`. The descending comparator, `sort.Reverse`, is `Less` with its arguments swapped. |
| Predictions.Swap | prediction.go:16-18 | `Swap(i, j)` exchanges the elements at i and j and leaves every other position unchanged. The length and the multiset of predictions are kept. |
| Predictions.SwapInvolution | prediction.go:16-18 | Applying `Swap(i, j)` twice restores the original sequence. |
| Predictions.SortedMeansMonotone | prediction.go:20-22 | Sorted under `Less` means scores never decrease. Sorted under the reversed comparator means they never increase. |
| Predictions.Sort | prediction.go:12-22 | A sort driven only by `Len`, `Less` and `Swap` returns a permutation of its input that is sorted in the chosen direction: non-decreasing scores ascending, non-increasing descending. |
| Predictions.SortedPermutationsAgree | prediction.go:12-22 | When scores are pairwise distinct, two sorted permutations of the same predictions are equal, so a sort driven by `Less` and `Swap` has a single possible result. |
| Predictions.SortedPermutationsSameScores | prediction.go:12-22 | Any two sorted permutations of the same predictions, ties included, have the same length and equal scores at every position. An unstable sort may reorder equal scores, and nothing else. |
| TensorImage.ShapeGeometry | internal/util.go:23-38 | A shape is accepted exactly when its rank is 3 or 4. Rank 3 gives (w, h, c) = (dim[0], dim[1], dim[2]). Rank 4 gives (dim[1], dim[2], dim[3]). |
| TensorImage.BatchDimensionSkipped | internal/util.go:35-36 | Putting a batch dimension in front of a rank-3 shape does not change (w, h, c). |
| TensorImage.RankDecidesGeometry | internal/util.go:23-25 | Whether a shape is refused depends on its rank alone. |
| TensorImage.Classify | internal/util.go:42-48 | c = 1 gives Gray, c = 3 gives RGBA, and any other c is `ErrInvalidImageTensor`. |
| TensorImage.ClassifyRoundTrip | internal/util.go:42-48 | Classifying a colour model's channel count gives that model back. A channel count that classifies as a model is that model's count. |
| TensorImage.ImageData | internal/util.go:32-38 | The pixel data is the tensor itself for rank 3 and batch element 0 for rank 4. In both cases it is a dense w x h x c array. |
| TensorImage.Blank | internal/util.go:41-45 | The image created before the copy has the colour model asked for, bounds (0, 0)-(w, h), h rows of w pixels, and every pixel zero. |
| TensorImage.SetPixel | internal/util.go:50-57 | A point inside the bounds gets the new colour. A point outside the bounds is ignored. No other pixel changes. |
| TensorImage.AsWrittenImage | internal/util.go:20-60 | The conversion as the source writes it fails exactly on ranks other than 3 and 4 and channel counts other than 1 and 3. Otherwise the colour model follows c, the bounds are (0, 0)-(w, h), and row y, column x holds the colour of data element [y][x] when that element exists, and zero otherwise. |
| TensorImage.ColorOf | internal/util.go:52-58 | A Gray pixel takes channel 0 only. An RGBA pixel is (p[0], p[1], p[2]) with alpha 255. |
| TensorImage.TensorToImage | internal/util.go:20-63 | Ranks other than 3 and 4, and channel counts other than 1 and 3, are `ErrInvalidImageTensor`. Otherwise the colour model follows c and the bounds are (0, 0)-(w, h). The copy loop visits every row y of the data and every column x of that row. Image row y, column x holds data element [y][x] when y < w and x < h, and the zero colour otherwise. |
| TensorImage.IntendedImage | internal/util.go:40-60 | Corrected conversion. The bounds are as wide as a data row and as high as the number of rows, and every data element [y][x] is stored at row y, column x. It fails on exactly the tensors the source refuses. |
| TensorImage.SquareImagesAgree | internal/util.go:33-52 | When w = h, the image the source builds is the intended one. |
| TensorImage.NonSquareImageLosesPixel | internal/util.go:33-52 | Counterexample: for a one-row, two-column gray tensor, the source builds a 1-wide, 2-high image and drops the second pixel. The intended image is 2 wide and 1 high and holds both pixels. |

## Left out

- TensorFlow itself is not modelled. `tf.NewTensor`, `scope.Finalize`, `tf.NewSession` and `session.Run` are opaque fields of `Runtime`, each returning a value or an error. The `op.*` graph construction is the `ResizePlan` value. The bilinear arithmetic of CropAndResize is folded into `runResize`. The `Graph.Operation` lookups of the input and output keys are folded into `runModel`. Every field is a deterministic function of its arguments.
- `io.Copy` into the two buffers through `io.MultiWriter` is I/O. Its outcome is an input of `FromImageCore`. `image.Decode` is the `sniff` field, which returns the format name.
- `FromImageWithContext` races a goroutine against the context through a channel and `select`. This is concurrency and is not modelled. That includes the unsynchronised read of `results` on cancellation, and the non-cancellable `FromImage`, which is `FromImageWithContext` with `context.Background()`.
- `New(nil)` dereferences the nil pointer (infer.go:45) and panics. `Model` is a plain value here, so there is no nil descriptor to pass.
- `session.Close` (deferred) releases resources and has no visible effect on the result, so it is not modelled.
- Infer.FromImageCore: requires both layers to be present, because the source dereferences `m.Input` and `m.Output` and would panic on a nil one. A nil `opts` would also panic; options are a plain value here.
- Infer.Eval: requires both layers to be present, for the same nil-dereference reason.
- Infer.Layer: `Dimensions` is `interface{}` in the source and is modelled as a list of integers. The output layer's dimensions are never read.
- Predictions: scores are integers, not float32. Only their order matters, and NaN is not modelled.
- Predictions.Sort: is a selection sort, not the algorithm inside Go's `sort.Sort`. Its contract is the one `sort.Sort` promises: a permutation in which no later element is `Less` than an earlier one. Stability is not promised.
- TensorImage: tensor elements are bytes. The `uint8(float32)` conversion of each component is floating-point detail and is not modelled. The element type check of `t.Value()` is also not modelled: a non-float tensor would panic.
- TensorImage.TensorToImage: requires a well-formed tensor, meaning non-negative dimensions and contents that match the shape, as every runtime tensor has. For rank 4 it also requires a non-empty batch, because the source indexes batch element 0 and would panic on an empty one.
- The example programs (`examples/inception`, `examples/mnist`) are HTTP serving, environment variables and file reading. They are not modelled, except for the `sort.Reverse` comparator they use. They also refer to fields `Value` and `Confidence`, which `Prediction` does not have (it has `Class` and `Score`).

## Findings

| source | as written | input that shows it | evidently intended | confidence | as-written member | corrected member |
|---|---|---|---|---|---|---|
| internal/util.go:33-52 | dim[0] is called `w` and becomes the image width, but the copy loop uses it as the row index `y`, and dim[1] (`h`) as the column index `x`. `Set` silently drops points outside the bounds. | A gray tensor of shape [1, 2, 1] holding 7 and 9 yields a 1-wide, 2-high image [[7], [0]]: the 9 is lost and row 1 stays zero. | The bounds are as wide as a data row and as high as the number of rows, so every element [y][x] lands at row y, column x. For this input that is the 2-wide, 1-high image [[7, 9]]. | medium, not executed | TensorImage.NonSquareImageLosesPixel | TensorImage.IntendedImage |
