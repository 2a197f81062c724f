/** The public prediction functions of nobrainer/predict.py: the array, image, file and
    file-list predictors, predictor resolution and the dispatcher `predict`. Everything
    the module delegates to (nobrainer.volume, numpy casting, nibabel I/O, the
    filesystem, TensorFlow loading) is a field of `Env`, left uninterpreted. */
module Prediction {
  import opened Outcomes
  import opened Volumes
  import opened Batching
  import Paths

  /** `DT_X`, the default feature dtype. */
  const DefaultDType := "float32"
  /** The default `batch_size` of every predictor. */
  const DefaultBatchSize := 4

  const NotAnImage := "image is not a nibabel image type"
  const NotPathLike := "expected str, bytes or os.PathLike object"
  const LoadFailure := "Failed to load predictor. Is `predictor` a path to a saved model?"

  /** The collaborators the module calls but does not define. */
  datatype Env = Env(
    /** `nobrainer.volume.to_blocks(features, block_shape)` */
    toBlocks: (NDArray, Shape) -> Result<seq<NDArray>>,
    /** `nobrainer.volume.from_blocks(outputs, output_shape)` */
    fromBlocks: (seq<NDArray>, Shape) -> Result<NDArray>,
    /** `nobrainer.volume.normalize_zero_one` */
    normalizeZeroOne: NDArray -> Result<NDArray>,
    /** `ndarray.astype(dtype)` */
    astype: (NDArray, string) -> Result<NDArray>,
    /** `Path(filepath).is_file()` */
    isFile: string -> bool,
    /** `nib.load(filepath)` */
    load: string -> Result<SpatialImage>,
    /** `tf.contrib.predictor.from_saved_model(path)` */
    fromSavedModel: string -> Result<Predictor>)

  /** A `normalizer` argument: a callable, or a falsy value such as `None`. */
  type Normalizer = Option<NDArray -> Result<NDArray>>

  /** A value passed where a filepath is expected. */
  datatype PathArg = PathStr(path: string) | NotAPath

  /** The `inputs` of `predict`, by runtime type. */
  datatype Input =
    | ArrayInput(array: NDArray)            // np.ndarray
    | ImageInput(image: SpatialImage)       // nib.spatialimages.SpatialImage
    | StrInput(path: string)                // str
    | SequenceInput(items: seq<PathArg>)    // list or tuple
    | OtherInput                            // anything else

  /** The `predictor` argument: a loaded `Predictor`, something `Path` accepts, or
      something it rejects. */
  datatype PredictorArg = Handle(predictor: Predictor) | PredictorPath(path: string) | NotAPredictor

  /** What iterating the generator of `predict_from_filepaths` observes: the images
      yielded, in order, and the exception that ended the iteration, if any. */
  datatype Yielded = Yielded(images: seq<SpatialImage>, raised: Option<Error>)

  /** What `predict` returns: an array, an image, or a generator of images. */
  datatype Output = ArrayOut(array: NDArray) | ImageOut(image: SpatialImage) | GeneratorOut(yielded: Yielded)

  // ---------------------------------------------------------------------------
  // predict_from_array (lines 104-120)
  // ---------------------------------------------------------------------------

  /** Lines 104-105 as written: a falsy normalizer leaves `features` unbound, so the
      next line raises `UnboundLocalError`. */
  function NormalizeAsWritten(normalizer: Normalizer, inputs: NDArray): Result<NDArray>
  {
    match normalizer
    case Some(f) => f(inputs)
    case None => Err(UnboundLocalError("features"))
  }

  /** Lines 104-105 as intended: without a normalizer the features are the inputs. */
  function Normalize(normalizer: Normalizer, inputs: NDArray): Result<NDArray>
  {
    match normalizer
    case Some(f) => f(inputs)
    case None => Ok(inputs)
  }

  /** A falsy normalizer makes the code as written raise, while the intended code
      predicts on the raw inputs; with a callable normalizer the two agree. */
  lemma NormalizeFinding(normalizer: Normalizer, inputs: NDArray)
    ensures normalizer.None? ==> NormalizeAsWritten(normalizer, inputs) == Err(UnboundLocalError("features"))
    ensures normalizer.None? ==> Normalize(normalizer, inputs) == Ok(inputs)
    ensures normalizer.Some? ==> NormalizeAsWritten(normalizer, inputs) == Normalize(normalizer, inputs)
  {
  }

  /** The value of `predict_from_array`: normalize, cut into blocks, run the batch loop,
      and reassemble to the shape of the original inputs. */
  function ArrayPrediction(env: Env, inputs: NDArray, p: Predictor, blockShape: Shape,
                           normalizer: Normalizer, batchSize: int): Result<NDArray>
  {
    match Normalize(normalizer, inputs)
    case Err(e) => Err(e)
    case Ok(features) =>
      match env.toBlocks(features, blockShape)
      case Err(e) => Err(e)
      case Ok(blocks) =>
        match BlockPrediction(blocks, p, batchSize)
        case Err(e) => Err(e)
        case Ok(outputs) => env.fromBlocks(outputs, inputs.shape)
  }

  /** `predict_from_array`, lines 104-120, with the batch loop run in place. */
  method PredictFromArray(env: Env, inputs: NDArray, p: Predictor, blockShape: Shape,
                          normalizer: Normalizer, batchSize: int)
    returns (r: Result<NDArray>)
    ensures r == ArrayPrediction(env, inputs, p, blockShape, normalizer, batchSize)
  {
    var features := Normalize(normalizer, inputs);
    if features.Err? {
      return Err(features.error);
    }
    var blocks := env.toBlocks(features.value, blockShape);
    if blocks.Err? {
      return Err(blocks.error);
    }
    var outputs, _, _ := PredictBlocks(blocks.value, p, batchSize);
    if outputs.Err? {
      return Err(outputs.error);
    }
    r := env.fromBlocks(outputs.value, inputs.shape);
  }

  /** With a block-by-block predictor and a positive batch size, the prediction is the
      per-block labels of the (channel-extended) blocks, reassembled to the shape of the
      original inputs, not of the normalized features. */
  lemma ArrayPredictionBlockwise(env: Env, inputs: NDArray, p: Predictor, f: NDArray -> NDArray,
                                 blockShape: Shape, normalizer: Normalizer, batchSize: int)
    requires batchSize > 0 && Blockwise(p, f)
    ensures ArrayPrediction(env, inputs, p, blockShape, normalizer, batchSize) ==
            match Normalize(normalizer, inputs)
            case Err(e) => Err(e)
            case Ok(features) =>
              match env.toBlocks(features, blockShape)
              case Err(e) => Err(e)
              case Ok(blocks) => env.fromBlocks(Apply(f, WithChannel(blocks)), inputs.shape)
  {
    var features := Normalize(normalizer, inputs);
    if features.Ok? {
      var blocks := env.toBlocks(features.value, blockShape);
      if blocks.Ok? {
        BatchSizeIrrelevant(blocks.value, p, f, batchSize, batchSize);
      }
    }
  }

  /** Batching only bounds memory: with a block-by-block predictor, every positive
      batch size gives the same prediction. */
  lemma ArrayBatchSizeIrrelevant(env: Env, inputs: NDArray, p: Predictor, f: NDArray -> NDArray,
                                 blockShape: Shape, normalizer: Normalizer, b1: int, b2: int)
    requires b1 > 0 && b2 > 0 && Blockwise(p, f)
    ensures ArrayPrediction(env, inputs, p, blockShape, normalizer, b1) ==
            ArrayPrediction(env, inputs, p, blockShape, normalizer, b2)
  {
    ArrayPredictionBlockwise(env, inputs, p, f, blockShape, normalizer, b1);
    ArrayPredictionBlockwise(env, inputs, p, f, blockShape, normalizer, b2);
  }

  // ---------------------------------------------------------------------------
  // predict_from_img (lines 144-157)
  // ---------------------------------------------------------------------------

  /** Lines 146-148: the image's voxel array, cast to `dtype` only when one is given. */
  function ImageFeatures(env: Env, image: SpatialImage, dtype: Option<string>): Result<NDArray>
  {
    if dtype.Some? then env.astype(image.dataobj, dtype.value) else Ok(image.dataobj)
  }

  /** `predict_from_img`: reject anything but a spatial image, predict on its voxels and
      wrap the labels with the original affine, header and extra metadata. */
  function ImagePrediction(env: Env, img: Input, p: Predictor, blockShape: Shape,
                           normalizer: Normalizer, batchSize: int, dtype: Option<string>): Result<SpatialImage>
  {
    if !img.ImageInput? then Err(ValueError(NotAnImage))
    else
      var image := img.image;
      match ImageFeatures(env, image, dtype)
      case Err(e) => Err(e)
      case Ok(inputs) =>
        match ArrayPrediction(env, inputs, p, blockShape, normalizer, batchSize)
        case Err(e) => Err(e)
        case Ok(y) => Ok(SpatialImage(y, image.affine, image.header, image.extra))
  }

  /** Anything that is not a spatial image raises `ValueError` before any work; a
      successful prediction keeps the image's affine, header and extra metadata and
      holds the array prediction of its voxels, which are cast exactly when a dtype is
      given. */
  lemma ImagePredictionMeaning(env: Env, img: Input, p: Predictor, blockShape: Shape,
                               normalizer: Normalizer, batchSize: int, dtype: Option<string>)
    ensures !img.ImageInput? ==>
              ImagePrediction(env, img, p, blockShape, normalizer, batchSize, dtype) == Err(ValueError(NotAnImage))
    ensures img.ImageInput? && dtype.None? ==>
              ImageFeatures(env, img.image, dtype) == Ok(img.image.dataobj)
    ensures var r := ImagePrediction(env, img, p, blockShape, normalizer, batchSize, dtype);
            r.Ok? ==>
              img.ImageInput? &&
              r.value.affine == img.image.affine &&
              r.value.header == img.image.header &&
              r.value.extra == img.image.extra &&
              ImageFeatures(env, img.image, dtype).Ok? &&
              Ok(r.value.dataobj) ==
                ArrayPrediction(env, ImageFeatures(env, img.image, dtype).value, p, blockShape, normalizer, batchSize)
  {
  }

  lemma ImageBatchSizeIrrelevant(env: Env, img: Input, p: Predictor, f: NDArray -> NDArray, blockShape: Shape,
                                 normalizer: Normalizer, b1: int, b2: int, dtype: Option<string>)
    requires b1 > 0 && b2 > 0 && Blockwise(p, f)
    ensures ImagePrediction(env, img, p, blockShape, normalizer, b1, dtype) ==
            ImagePrediction(env, img, p, blockShape, normalizer, b2, dtype)
  {
    if img.ImageInput? {
      var inputs := ImageFeatures(env, img.image, dtype);
      if inputs.Ok? {
        ArrayBatchSizeIrrelevant(env, inputs.value, p, f, blockShape, normalizer, b1, b2);
      }
    }
  }

  // ---------------------------------------------------------------------------
  // predict_from_filepath (lines 182-190)
  // ---------------------------------------------------------------------------

  /** Lines 182-190 with the dtype handed to `predict_from_img` made explicit. */
  function FileThenImage(env: Env, filepath: PathArg, p: Predictor, blockShape: Shape,
                         normalizer: Normalizer, batchSize: int, imageDType: Option<string>): Result<SpatialImage>
  {
    match filepath
    case NotAPath => Err(TypeError(NotPathLike))
    case PathStr(s) =>
      if !env.isFile(s) then Err(FileNotFoundError("could not find file " + s))
      else
        match env.load(s)
        case Err(e) => Err(e)
        case Ok(image) => ImagePrediction(env, ImageInput(image), p, blockShape, normalizer, batchSize, imageDType)
  }

  /** `predict_from_filepath` as written: `dtype` is not passed on, so the image is
      always cast to the default `float32`. */
  function FilepathPredictionAsWritten(env: Env, filepath: PathArg, p: Predictor, blockShape: Shape,
                                       normalizer: Normalizer, batchSize: int, dtype: Option<string>): Result<SpatialImage>
  {
    FileThenImage(env, filepath, p, blockShape, normalizer, batchSize, Some(DefaultDType))
  }

  /** `predict_from_filepath` as intended: the caller's `dtype` reaches `predict_from_img`. */
  function FilepathPrediction(env: Env, filepath: PathArg, p: Predictor, blockShape: Shape,
                              normalizer: Normalizer, batchSize: int, dtype: Option<string>): Result<SpatialImage>
  {
    FileThenImage(env, filepath, p, blockShape, normalizer, batchSize, dtype)
  }

  /** A path that is not a regular file raises `FileNotFoundError` before anything is
      loaded: the result does not depend on the loader at all. A non-path raises
      `TypeError`. An existing file is loaded and its image predicted with the
      caller's dtype. */
  lemma FilepathPredictionMeaning(env: Env, filepath: PathArg, p: Predictor, blockShape: Shape,
                                  normalizer: Normalizer, batchSize: int, dtype: Option<string>,
                                  otherLoad: string -> Result<SpatialImage>)
    ensures filepath.NotAPath? ==>
              FilepathPrediction(env, filepath, p, blockShape, normalizer, batchSize, dtype) == Err(TypeError(NotPathLike))
    ensures filepath.PathStr? && !env.isFile(filepath.path) ==>
              FilepathPrediction(env, filepath, p, blockShape, normalizer, batchSize, dtype) ==
                Err(FileNotFoundError("could not find file " + filepath.path)) &&
              FilepathPrediction(env.(load := otherLoad), filepath, p, blockShape, normalizer, batchSize, dtype) ==
                FilepathPrediction(env, filepath, p, blockShape, normalizer, batchSize, dtype)
    ensures filepath.PathStr? && env.isFile(filepath.path) && env.load(filepath.path).Ok? ==>
              FilepathPrediction(env, filepath, p, blockShape, normalizer, batchSize, dtype) ==
                ImagePrediction(env, ImageInput(env.load(filepath.path).value), p, blockShape, normalizer, batchSize, dtype)
  {
  }

  /** As written, the `dtype` argument of `predict_from_filepath` has no effect: every
      dtype gives what the intended code gives for `float32`. */
  lemma FilepathDTypeIgnored(env: Env, filepath: PathArg, p: Predictor, blockShape: Shape,
                             normalizer: Normalizer, batchSize: int, d1: Option<string>, d2: Option<string>)
    ensures FilepathPredictionAsWritten(env, filepath, p, blockShape, normalizer, batchSize, d1) ==
            FilepathPredictionAsWritten(env, filepath, p, blockShape, normalizer, batchSize, d2)
    ensures FilepathPredictionAsWritten(env, filepath, p, blockShape, normalizer, batchSize, d1) ==
            FilepathPrediction(env, filepath, p, blockShape, normalizer, batchSize, Some(DefaultDType))
  {
  }

  /** An environment in which casting to any dtype fails and everything else succeeds
      on an empty volume. */
  function CastFailsEnv(image: SpatialImage): Env
  {
    Env(
      (a, s) => Ok([]),
      (bs, s) => Ok(NDArray(s, [])),
      a => Ok(a),
      (a, d) => Err(TypeError("data type not understood")),
      path => true,
      path => Ok(image),
      path => Err(Raised("no model")))
  }

  /** The input that shows the discrepancy: with `dtype=None` and a cast that fails,
      the code as written raises while the intended code predicts. */
  lemma FilepathDTypeWitness(image: SpatialImage, p: Predictor)
    ensures FilepathPredictionAsWritten(CastFailsEnv(image), PathStr("brain.nii.gz"), p, [128, 128, 128], Some(a => Ok(a)), DefaultBatchSize, None) ==
            Err(TypeError("data type not understood"))
    ensures FilepathPrediction(CastFailsEnv(image), PathStr("brain.nii.gz"), p, [128, 128, 128], Some(a => Ok(a)), DefaultBatchSize, None).Ok?
  {
  }

  // ---------------------------------------------------------------------------
  // predict_from_filepaths (lines 215-222)
  // ---------------------------------------------------------------------------

  /** Draining the generator of `predict_from_filepaths`: one image per filepath in
      order, until the first filepath whose prediction raises. */
  function FilepathsPrediction(env: Env, filepaths: seq<PathArg>, p: Predictor, blockShape: Shape,
                               normalizer: Normalizer, batchSize: int, dtype: Option<string>): Yielded
    decreases |filepaths|
  {
    if |filepaths| == 0 then Yielded([], None)
    else
      match FilepathPrediction(env, filepaths[0], p, blockShape, normalizer, batchSize, dtype)
      case Err(e) => Yielded([], Some(e))
      case Ok(image) =>
        var rest := FilepathsPrediction(env, filepaths[1..], p, blockShape, normalizer, batchSize, dtype);
        Yielded([image] + rest.images, rest.raised)
  }

  /** The generator yields the prediction of filepath `i` as its `i`-th element, for a
      prefix of the filepaths; it runs through all of them exactly when none raises,
      and otherwise stops with the exception of the first filepath that raises. */
  lemma {:induction false} FilepathsInOrder(env: Env, filepaths: seq<PathArg>, p: Predictor, blockShape: Shape,
                                            normalizer: Normalizer, batchSize: int, dtype: Option<string>)
    ensures var y := FilepathsPrediction(env, filepaths, p, blockShape, normalizer, batchSize, dtype);
            |y.images| <= |filepaths| &&
            (forall i :: 0 <= i < |y.images| ==>
               FilepathPrediction(env, filepaths[i], p, blockShape, normalizer, batchSize, dtype) == Ok(y.images[i])) &&
            (y.raised.None? <==> |y.images| == |filepaths|) &&
            (y.raised.Some? ==>
               FilepathPrediction(env, filepaths[|y.images|], p, blockShape, normalizer, batchSize, dtype) == Err(y.raised.value))
    decreases |filepaths|
  {
    if |filepaths| > 0 {
      FilepathsInOrder(env, filepaths[1..], p, blockShape, normalizer, batchSize, dtype);
    }
  }

  lemma {:induction false} FilepathsBatchSizeIrrelevant(env: Env, filepaths: seq<PathArg>, p: Predictor, f: NDArray -> NDArray,
                                                        blockShape: Shape, normalizer: Normalizer, b1: int, b2: int,
                                                        dtype: Option<string>)
    requires b1 > 0 && b2 > 0 && Blockwise(p, f)
    ensures FilepathsPrediction(env, filepaths, p, blockShape, normalizer, b1, dtype) ==
            FilepathsPrediction(env, filepaths, p, blockShape, normalizer, b2, dtype)
    decreases |filepaths|
  {
    if |filepaths| > 0 {
      FilepathBatchSizeIrrelevant(env, filepaths[0], p, f, blockShape, normalizer, b1, b2, dtype);
      FilepathsBatchSizeIrrelevant(env, filepaths[1..], p, f, blockShape, normalizer, b1, b2, dtype);
    }
  }

  lemma FilepathBatchSizeIrrelevant(env: Env, filepath: PathArg, p: Predictor, f: NDArray -> NDArray,
                                    blockShape: Shape, normalizer: Normalizer, b1: int, b2: int, dtype: Option<string>)
    requires b1 > 0 && b2 > 0 && Blockwise(p, f)
    ensures FilepathPrediction(env, filepath, p, blockShape, normalizer, b1, dtype) ==
            FilepathPrediction(env, filepath, p, blockShape, normalizer, b2, dtype)
  {
    if filepath.PathStr? && env.isFile(filepath.path) && env.load(filepath.path).Ok? {
      ImageBatchSizeIrrelevant(env, ImageInput(env.load(filepath.path).value), p, f, blockShape, normalizer, b1, b2, dtype);
    }
  }

  // ---------------------------------------------------------------------------
  // _get_predictor (lines 231-245)
  // ---------------------------------------------------------------------------

  /** `_get_predictor`: a loaded predictor is returned as is; a path is loaded from the
      directory `Paths.SavedModelDir` names; any failure becomes one `ValueError`. */
  function ResolvePredictor(env: Env, predictor: PredictorArg): Result<Predictor>
  {
    match predictor
    case Handle(q) => Ok(q)
    case NotAPredictor => Err(ValueError(LoadFailure))
    case PredictorPath(s) =>
      match env.fromSavedModel(Paths.SavedModelDir(s))
      case Err(_) => Err(ValueError(LoadFailure))
      case Ok(q) => Ok(q)
  }

  /** A loaded predictor comes back unchanged; a path to a `.pb` file loads from the
      directory that holds it; a directory path loads from itself; and every failure,
      whatever the loader raised, is the same `ValueError`. */
  lemma ResolvePredictorMeaning(env: Env, predictor: PredictorArg, dir: Paths.PathValue, file: string)
    ensures predictor.Handle? ==> ResolvePredictor(env, predictor) == Ok(predictor.predictor)
    ensures ResolvePredictor(env, predictor).Err? ==> ResolvePredictor(env, predictor) == Err(ValueError(LoadFailure))
    ensures predictor.NotAPredictor? ==> ResolvePredictor(env, predictor).Err?
    ensures Paths.WellFormed(dir) && Paths.ValidPart(file) &&
            |file| >= 4 && file[|file| - 3..] == Paths.ModelFileSuffix &&
            predictor == PredictorPath(Paths.Render(Paths.PathValue(dir.absolute, dir.parts + [file]))) ==>
              ResolvePredictor(env, predictor) ==
                match env.fromSavedModel(Paths.Render(dir))
                case Err(_) => Err(ValueError(LoadFailure))
                case Ok(q) => Ok(q)
  {
    if Paths.WellFormed(dir) && Paths.ValidPart(file) &&
       |file| >= 4 && file[|file| - 3..] == Paths.ModelFileSuffix {
      Paths.SavedModelDirOfModelFile(dir, file);
    }
  }

  // ---------------------------------------------------------------------------
  // predict (lines 49-82)
  // ---------------------------------------------------------------------------

  /** The value a branch of `predict` returns, or the exception it raises. */
  function Lift<T>(r: Result<T>, wrap: T -> Output): Result<Output>
  {
    match r
    case Err(e) => Err(e)
    case Ok(v) => Ok(wrap(v))
  }

  /** `predict`: resolve the predictor, then route on the type of `inputs` in the
      source's order. An array always gets `normalize_zero_one`, whatever normalizer
      was passed. An input of no recognized type leaves `out` unbound. */
  function Predict(env: Env, inputs: Input, predictor: PredictorArg, blockShape: Shape,
                   normalizer: Normalizer, batchSize: int, dtype: Option<string>): Result<Output>
  {
    match ResolvePredictor(env, predictor)
    case Err(e) => Err(e)
    case Ok(p) =>
      match inputs
      case ArrayInput(a) =>
        Lift(ArrayPrediction(env, a, p, blockShape, Some(env.normalizeZeroOne), batchSize), y => ArrayOut(y))
      case ImageInput(_) =>
        Lift(ImagePrediction(env, inputs, p, blockShape, normalizer, batchSize, dtype), image => ImageOut(image))
      case StrInput(s) =>
        Lift(FilepathPrediction(env, PathStr(s), p, blockShape, normalizer, batchSize, dtype), image => ImageOut(image))
      case SequenceInput(items) =>
        Ok(GeneratorOut(FilepathsPrediction(env, items, p, blockShape, normalizer, batchSize, dtype)))
      case OtherInput => Err(UnboundLocalError("out"))
  }

  /** The predictor is resolved before the inputs are looked at, so its failure wins
      over every other; an unrecognized input raises `UnboundLocalError` rather than
      returning anything; a list or tuple always yields a generator, whose elements
      fail one by one. */
  lemma PredictErrors(env: Env, inputs: Input, predictor: PredictorArg, blockShape: Shape,
                      normalizer: Normalizer, batchSize: int, dtype: Option<string>)
    ensures ResolvePredictor(env, predictor).Err? ==>
              Predict(env, inputs, predictor, blockShape, normalizer, batchSize, dtype) ==
                Err(ValueError(LoadFailure))
    ensures ResolvePredictor(env, predictor).Ok? && inputs.OtherInput? ==>
              Predict(env, inputs, predictor, blockShape, normalizer, batchSize, dtype) ==
                Err(UnboundLocalError("out"))
    ensures ResolvePredictor(env, predictor).Ok? && inputs.SequenceInput? ==>
              Predict(env, inputs, predictor, blockShape, normalizer, batchSize, dtype).Ok? &&
              Predict(env, inputs, predictor, blockShape, normalizer, batchSize, dtype).value.GeneratorOut?
  {
  }

  /** The array branch ignores the caller's normalizer and dtype: any two choices give
      the same result, the array prediction under `normalize_zero_one`. */
  lemma PredictArrayIgnoresNormalizer(env: Env, a: NDArray, predictor: PredictorArg, blockShape: Shape,
                                      n1: Normalizer, n2: Normalizer, batchSize: int,
                                      d1: Option<string>, d2: Option<string>)
    ensures Predict(env, ArrayInput(a), predictor, blockShape, n1, batchSize, d1) ==
            Predict(env, ArrayInput(a), predictor, blockShape, n2, batchSize, d2)
    ensures ResolvePredictor(env, predictor).Ok? ==>
              Predict(env, ArrayInput(a), predictor, blockShape, n1, batchSize, d1) ==
                Lift(ArrayPrediction(env, a, ResolvePredictor(env, predictor).value, blockShape,
                                     Some(env.normalizeZeroOne), batchSize), y => ArrayOut(y))
  {
  }

  /** Batching only bounds memory, whatever the input: with a predictor that labels
      blocks one by one, every positive batch size gives the same result. */
  lemma PredictBatchSizeIrrelevant(env: Env, inputs: Input, predictor: PredictorArg, f: NDArray -> NDArray,
                                   blockShape: Shape, normalizer: Normalizer, b1: int, b2: int,
                                   dtype: Option<string>)
    requires b1 > 0 && b2 > 0
    requires ResolvePredictor(env, predictor).Ok? && Blockwise(ResolvePredictor(env, predictor).value, f)
    ensures Predict(env, inputs, predictor, blockShape, normalizer, b1, dtype) ==
            Predict(env, inputs, predictor, blockShape, normalizer, b2, dtype)
  {
    var p := ResolvePredictor(env, predictor).value;
    match inputs
    case ArrayInput(a) =>
      ArrayBatchSizeIrrelevant(env, a, p, f, blockShape, Some(env.normalizeZeroOne), b1, b2);
    case ImageInput(_) =>
      ImageBatchSizeIrrelevant(env, inputs, p, f, blockShape, normalizer, b1, b2, dtype);
    case StrInput(s) =>
      FilepathBatchSizeIrrelevant(env, PathStr(s), p, f, blockShape, normalizer, b1, b2, dtype);
    case SequenceInput(items) =>
      FilepathsBatchSizeIrrelevant(env, items, p, f, blockShape, normalizer, b1, b2, dtype);
    case OtherInput =>
  }
}
