# nobrainer prediction, modelled in Dafny

This project models `nobrainer/predict.py`, the part of nobrainer that turns a trained
brain-segmentation network into a prediction for a whole MRI volume. A volume is
normalized and cut into fixed-shape blocks. The blocks go to a TensorFlow predictor
`batch_size` blocks at a time. Each answer is written into the matching slice of a
zero-filled output buffer. The labelled blocks are then put back together into a volume
of the input's shape. Wrappers accept a nibabel image, a file path or a list of file
paths. A dispatcher `predict` chooses among them by the type of its input, after turning
a saved-model path into a predictor.

Modules:

- `Outcomes` (`outcomes.dfy`): Python exceptions as `Result`, plus `Option`.
- `Volumes` (`volumes.dfy`): arrays as shape plus values, `np.zeros_like`, the extra
  channel axis, and spatial images as a voxel array with affine, header and extra
  metadata.
- `Batching` (`batching.dfy`): the batch loop of `predict_from_array`.
  - `PredictBlocks` runs the loop in place over an `array`.
  - It is proved equal to the reference function `PredictChunks`.
  - The chunk arithmetic of `range(0, n, b)` and `math.ceil(n / b)` is proved about
    `ChunkStart`, `ChunkIndex` and `NBatches`.
- `Paths` (`paths.dfy`): the slice of `pathlib` that `_get_predictor` relies on.
  It covers parsing, `str`, `.name`, `.suffix` and `.parent`.
- `Prediction` (`prediction.dfy`): `predict_from_array`, `predict_from_img`,
  `predict_from_filepath`, `predict_from_filepaths`, `_get_predictor` and `predict`.

Collaborators the module calls but does not define are fields of the `Env` datatype
and are left uninterpreted. These are `to_blocks`, `from_blocks`, `normalize_zero_one`,
`ndarray.astype`, `Path.is_file`, `nib.load` and `tf.contrib.predictor.from_saved_model`.
The predictor is a function from a feed dictionary to a dictionary of outputs, or an
exception.

Edge cases modelled as the code behaves:

- `batch_size == 0` raises `ZeroDivisionError` in `math.ceil(n_blocks / batch_size)`.
- A negative `batch_size` makes `range(0, n_blocks, batch_size)` empty, so the zero
  buffer is returned. This assumes that the Keras progress bar built at lines 113-114
  with a target `ceil(n_blocks / batch_size) <= 0` does not raise; its code is not
  part of this model.
- A predictor answer without `class_ids` raises `KeyError`.
- An answer whose row count neither matches the slice nor is 1 raises numpy's
  broadcast `ValueError`. A single row is broadcast over the slice.
- A non-image given to `predict_from_img` raises `ValueError`, as the code does.
- An input `predict` does not recognise leaves `out` unbound, so `return out` raises
  `UnboundLocalError`.

## Model

| member | source | states |
|---|---|---|
| Volumes.ZerosLike | nobrainer/predict.py:107 | the buffer block has the shape and size of its input block and holds only zeros |
| Batching.WithChannel | nobrainer/predict.py:108 | adding the channel axis keeps the number of blocks; each block gains a trailing axis of extent 1 and keeps its voxels |
| Batching.AssignRows | nobrainer/predict.py:116 | a slice assignment stores the assigned rows when the counts agree, repeats a single row across the slice, and raises exactly when neither holds |
| Batching.RunChunk | nobrainer/predict.py:116-117 | a successful call stores the predictor's `class_ids` answer to `{'volume': chunk}`, fitted to the chunk's slice (one row per block); a predictor exception propagates, a missing `class_ids` raises `KeyError`, and an answer that cannot fill the slice raises numpy's broadcast `ValueError` |
| Batching.PredictChunks | nobrainer/predict.py:115-117 | the chunked prediction, when it succeeds, has one output block per input block |
| Batching.NBatchesMeaning | nobrainer/predict.py:111-115 | `ceil(n / b)` is exactly the number of turns of `range(0, n, b)`: the loop variable reaches `n` after that many turns and was below `n` on the last one |
| Batching.ChunkContaining | nobrainer/predict.py:115-117 | every block `i` lies in exactly one slice `[j, min(j + b, n))`, and that slice is one the loop visits, so the slices are disjoint and cover all blocks |
| Batching.ChunkSizes | nobrainer/predict.py:115-117 | a chunk is visited exactly when it starts before `n`; every visited chunk holds `b` blocks except the last, which holds 1 to `b` |
| Batching.PredictChunksAt | nobrainer/predict.py:107-117 | output block `i` is the row for `i` in the predictor's answer to the one chunk that contains `i` |
| Batching.PredictChunksBlockwise | nobrainer/predict.py:110-117 | a predictor that labels blocks one by one fills the buffer with each block's own label |
| Batching.BatchSizeIrrelevant | nobrainer/predict.py:110-117 | with such a predictor every positive batch size leaves the same buffer |
| Batching.PredictBlocks | nobrainer/predict.py:107-118 | the in-place loop leaves the reference buffer (or raises what it raises, including on a zero batch size); it calls the predictor exactly `ceil(n / b)` times when it succeeds, and writes every output block exactly once |
| Paths.ComponentLength | nobrainer/predict.py:235 | the leading path component ends at the first separator |
| Paths.Components | nobrainer/predict.py:235 | every component `Path` keeps is non-empty, not `.` and free of separators |
| Paths.Parse | nobrainer/predict.py:235 | a parsed path is in normal form |
| Paths.LastDot | nobrainer/predict.py:238 | the index found is the last `.` of the name, and none means there is no `.` |
| Paths.SuffixIsPb | nobrainer/predict.py:238 | a name has suffix `.pb` exactly when it ends in `.pb` with at least one character before it |
| Paths.ComponentsOfJoin | nobrainer/predict.py:235-240 | splitting the joined components gives the components back |
| Paths.ParseRender | nobrainer/predict.py:235-240 | `Path(str(p)) == p` for every normal-form path |
| Paths.RenderParseIdempotent | nobrainer/predict.py:235-240 | normalizing a path string twice is normalizing it once |
| Paths.SavedModelDirOfModelFile | nobrainer/predict.py:236-240 | a path to a `.pb` file inside a directory loads from that directory |
| Paths.SavedModelDirOfDirectory | nobrainer/predict.py:238-240 | a path without the `.pb` suffix loads from itself |
| Prediction.NormalizeFinding | nobrainer/predict.py:104-105 | without a normalizer the code as written raises `UnboundLocalError` where the intended code uses the raw volume; with one they agree |
| Prediction.PredictFromArray | nobrainer/predict.py:104-120 | normalize, cut into blocks, run the in-place batch loop and reassemble to the input's shape; every error propagates. It follows the corrected normalization (first row of Findings): with `normalizer=None` it predicts on the raw volume, where the code as written raises `UnboundLocalError` |
| Prediction.ArrayPredictionBlockwise | nobrainer/predict.py:104-120 | with a block-by-block predictor the result is each channel-extended block labelled on its own, reassembled to the shape of the original inputs |
| Prediction.ArrayBatchSizeIrrelevant | nobrainer/predict.py:110-120 | with a predictor that labels blocks one by one, the array prediction is the same for every positive batch size |
| Prediction.ImagePredictionMeaning | nobrainer/predict.py:144-157 | a non-image raises `ValueError` before any work; the voxels are cast only when a dtype is given; a result keeps the affine, header and extra metadata and holds the array prediction of the voxels |
| Prediction.ImageBatchSizeIrrelevant | nobrainer/predict.py:150-157 | with a predictor that labels blocks one by one, the image prediction is the same for every positive batch size |
| Prediction.FilepathPredictionMeaning | nobrainer/predict.py:182-190 | a path that is not a regular file raises `FileNotFoundError` naming it, before and regardless of any load; a non-path raises `TypeError`; an existing file is loaded and its image predicted. It follows the corrected `predict_from_filepath` (second row of Findings), which passes the caller's `dtype` on; the code as written always casts to `float32` |
| Prediction.FilepathDTypeIgnored | nobrainer/predict.py:185-190 | as written, every `dtype` gives the prediction the intended code gives for `float32` |
| Prediction.FilepathDTypeWitness | nobrainer/predict.py:185-190 | with `dtype=None` and a failing cast, the code as written raises where the intended code predicts |
| Prediction.FilepathBatchSizeIrrelevant | nobrainer/predict.py:182-190 | with a predictor that labels blocks one by one, the file prediction is the same for every positive batch size |
| Prediction.FilepathsInOrder | nobrainer/predict.py:215-222 | the `i`-th yielded image is the prediction for the `i`-th path; all paths are yielded exactly when none raises, otherwise iteration stops with the first path's exception |
| Prediction.FilepathsBatchSizeIrrelevant | nobrainer/predict.py:215-222 | with a predictor that labels blocks one by one, the yielded images are the same for every positive batch size |
| Prediction.ResolvePredictorMeaning | nobrainer/predict.py:231-245 | a predictor object comes back unchanged; a `.pb` file path loads from its directory; every failure is the one `ValueError` |
| Prediction.PredictErrors | nobrainer/predict.py:49-82 | a predictor that cannot be loaded fails before the inputs are looked at; an unrecognised input raises `UnboundLocalError`; a list or tuple always gives a generator |
| Prediction.PredictArrayIgnoresNormalizer | nobrainer/predict.py:51-57 | the array branch gives the same result whatever normalizer and dtype are passed: the prediction under `normalize_zero_one` |
| Prediction.PredictBatchSizeIrrelevant | nobrainer/predict.py:49-82 | when the predictor loads and labels blocks one by one, the result is the same for every positive batch size, for every kind of input |

## Left out

- TensorFlow inference and model loading are left uninterpreted. The predictor and
  `from_saved_model` are function parameters.
- `to_blocks`, `from_blocks` and `normalize_zero_one` come from `nobrainer.volume`.
  That file is not part of this model, so they are uninterpreted fields of `Env`.
- nibabel I/O (`nib.load`, `img.uncache()`, building the result image) is left out.
  The image is a record whose affine, header and extra fields are carried through.
- `np.asarray` of the data object and the `astype` cast are not modelled as numerics.
  The cast is an uninterpreted function that may raise.
- Floating-point arithmetic is left out; voxel values are `real`.
- The Keras progress bar (lines 113-118) is assumed to have no functional role: that
  it never raises, also for a target of 0 or less, is an assumption, since its code is
  not part of this model. Only its tick count is kept, as the `calls` result of
  `Batching.PredictBlocks`.
- Batching.RunChunk: numpy broadcasting is modelled along the block axis only. Inner
  dimensions and the dtype cast of the labels into the buffer are not checked.
- The generator of `predict_from_filepaths` is modelled as the sequence a full
  iteration observes. Laziness is not modelled: interleaving with the caller and
  partial consumption are left out.
- Paths.Parse: the POSIX rule that keeps exactly two leading slashes is not modelled.
- Python values that `Path` rejects are one `NotAPath` or `NotAPredictor` case.
  Bytes and `os.PathLike` objects are not modelled separately.
- An `ImportError` from the `tensorflow.contrib` import at line 229 is not modelled.

## Findings

| source | as written | input that shows it | evidently intended | confidence | as-written member | corrected member |
|---|---|---|---|---|---|---|
| nobrainer/predict.py:104-106 | `features` is bound only when `normalizer` is truthy | `predict_from_array(x, p, s, normalizer=None)` raises `UnboundLocalError` | without a normalizer, predict on the volume itself | not executed | Prediction.NormalizeAsWritten (shown by Prediction.NormalizeFinding) | Prediction.Normalize (used by Prediction.ArrayPrediction) |
| nobrainer/predict.py:185-190 | `dtype` is not forwarded to `predict_from_img`, so `float32` is always used | `predict_from_filepath(f, p, s, dtype=None)` with a volume that cannot be cast raises (Prediction.FilepathDTypeWitness) | cast to the caller's `dtype`, and not at all for `None` | not executed | Prediction.FilepathPredictionAsWritten (shown by Prediction.FilepathDTypeIgnored and Prediction.FilepathDTypeWitness) | Prediction.FilepathPrediction (used by Prediction.FilepathsPrediction and Prediction.Predict) |
