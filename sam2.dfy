/** The segmentation engine of SAM2-Demo/Common/SAM2.swift: the model
    handles and the encodings they produce, the coordinate transform into
    the 1024x1024 model space, the prompt arrays, the logit range and the
    zero-logit threshold of the mask decoder's output, and the pass that
    makes black pixels transparent. The three CoreML models and the
    CoreImage rendering are opaque: a model handle carries its prediction
    function and the renderer is a pair of functions the caller supplies. */
module SAM2Core {
  import opened Wrappers
  import opened Geometry
  import opened Models

  /** `SAM2Error`, plus `PredictionFailed` for whatever a CoreML prediction
      or input construction throws. */
  datatype SAM2Error = ModelNotLoaded | PixelBufferCreationFailed | ImageResizingFailed | PredictionFailed

  /** `inputSize`: the model space is 1024 by 1024. */
  const ModelSide: real := 1024.0

  /** An `MLMultiArray` handed from one model to another. */
  datatype Tensor = Tensor(handle: nat)

  datatype ImageEncoderOutput = ImageEncoderOutput(imageEmbedding: Tensor, featsS0: Tensor, featsS1: Tensor)

  datatype PromptEncoderOutput = PromptEncoderOutput(sparseEmbeddings: Tensor, denseEmbeddings: Tensor)

  datatype DecoderInput = DecoderInput(
    imageEmbedding: Tensor, sparseEmbedding: Tensor, denseEmbedding: Tensor, featsS0: Tensor, featsS1: Tensor)

  /** `low_res_masks` as [batch][mask][pixel]: the decoder always yields one
      batch of three candidate planes. */
  type LowResMasks = m: seq<seq<seq<real>>> | |m| >= 1 && |m[0]| >= 3 witness [[[], [], []]]

  /** What the image encoder reads: a pixel buffer or an image file. */
  datatype EncoderInput = PixelBuffer(handle: nat) | ImageFile(url: string)

  datatype ImageEncoderModel = ImageEncoderModel(predict: EncoderInput -> Result<ImageEncoderOutput, SAM2Error>)

  /** The prompt encoder reads points as a flat [1, n, 2] array and labels
      as a [1, n] array. */
  datatype PromptEncoderModel = PromptEncoderModel(predict: (seq<real>, seq<int>) -> Result<PromptEncoderOutput, SAM2Error>)

  datatype MaskDecoderModel = MaskDecoderModel(predict: DecoderInput -> Result<LowResMasks, SAM2Error>)

  /** The CoreImage side of `getMask`: `cgImage(min:max:)` renders a plane
      as greyscale over the given window and may fail; `resizeCGImage`
      scales and thresholds and may throw. */
  datatype Renderer = Renderer(
    grayscale: (seq<real>, real, real) -> Option<Image>,
    resizeThresholded: (Image, Size, Fraction) -> Result<Image, SAM2Error>)

  /** An IEEE double as far as a quotient needs one. */
  datatype Fraction = Finite(value: real) | PositiveInfinity | NegativeInfinity | NotANumber

  // ---------------------------------------------------------------------
  // Coordinate transform

  function MapPoint(c: Point2, normalize: bool, origHW: Size): Point2
    requires normalize ==> NonDegenerate(origHW)
  {
    if normalize then Point2(c.x / origHW.width * ModelSide, c.y / origHW.height * ModelSide)
    else Point2(c.x * ModelSide, c.y * ModelSide)
  }

  /** `transformCoords`: a `map` over the coordinates, into model space. */
  function TransformCoords(coords: seq<Point2>, normalize: bool, origHW: Size): (r: seq<Point2>)
    requires normalize ==> NonDegenerate(origHW)
    ensures |r| == |coords|
    ensures forall i :: 0 <= i < |coords| && normalize ==>
      r[i].x * origHW.width == coords[i].x * ModelSide && r[i].y * origHW.height == coords[i].y * ModelSide
    ensures forall i :: 0 <= i < |coords| && !normalize ==>
      r[i] == Point2(coords[i].x * ModelSide, coords[i].y * ModelSide)
  {
    seq(|coords|, i requires 0 <= i < |coords| => MapPoint(coords[i], normalize, origHW))
  }

  /** Normalising by the image size and then scaling by 1024 is the same as
      scaling the point normalised by `fromSize`. */
  lemma TransformIsScaledFromSize(coords: seq<Point2>, origHW: Size, i: nat)
    requires NonDegenerate(origHW) && i < |coords|
    ensures TransformCoords(coords, true, origHW)[i] == ToSize(FromSize(coords[i], origHW), Size(ModelSide, ModelSide))
  {
  }

  function Coordinates(points: seq<SamPoint>): (cs: seq<Point2>)
    ensures |cs| == |points|
    ensures forall i :: 0 <= i < |points| ==> cs[i] == points[i].coordinates
  {
    seq(|points|, i requires 0 <= i < |points| => points[i].coordinates)
  }

  // ---------------------------------------------------------------------
  // Prompt arrays

  /** The loop of `getPromptEncoding` that fills the flat [1, n, 2] point
      array and the [1, n] label array, entry i from transformed point i and
      from the category code of input point i. */
  method PromptArrays(transformed: seq<Point2>, allPoints: seq<SamPoint>) returns (points: seq<real>, labels: seq<int>)
    requires |transformed| == |allPoints|
    ensures |points| == 2 * |allPoints| && |labels| == |allPoints|
    ensures forall i :: 0 <= i < |allPoints| ==>
      points[2 * i] == transformed[i].x && points[2 * i + 1] == transformed[i].y
    ensures forall i :: 0 <= i < |allPoints| ==> labels[i] == allPoints[i].category.kind.RawValue()
    ensures points == Interleaved(transformed) && labels == Labels(allPoints)
  {
    var n := |allPoints|;
    var pointsArray := new real[2 * n];
    var labelsArray := new int[n];
    var index := 0;
    while index < n
      invariant 0 <= index <= n
      invariant forall i :: 0 <= i < index ==>
        pointsArray[2 * i] == transformed[i].x && pointsArray[2 * i + 1] == transformed[i].y
      invariant forall i :: 0 <= i < index ==> labelsArray[i] == allPoints[i].category.kind.RawValue()
    {
      pointsArray[2 * index] := transformed[index].x;
      pointsArray[2 * index + 1] := transformed[index].y;
      labelsArray[index] := allPoints[index].category.kind.RawValue();
      index := index + 1;
    }
    points := pointsArray[..];
    labels := labelsArray[..];
    InterleavedUnique(points, transformed);
  }

  /** The coordinates laid out as x0, y0, x1, y1, ... */
  function Interleaved(transformed: seq<Point2>): (r: seq<real>)
    ensures |r| == 2 * |transformed|
  {
    seq(2 * |transformed|, j requires 0 <= j < 2 * |transformed| =>
      if j % 2 == 0 then transformed[j / 2].x else transformed[j / 2].y)
  }

  /** The category code of each point. */
  function Labels(allPoints: seq<SamPoint>): (r: seq<int>)
    ensures |r| == |allPoints|
  {
    seq(|allPoints|, i requires 0 <= i < |allPoints| => allPoints[i].category.kind.RawValue())
  }

  /** A sequence holding each point's x at 2i and y at 2i + 1 is the
      interleaving: the layout determines the contents. */
  lemma InterleavedUnique(points: seq<real>, transformed: seq<Point2>)
    requires |points| == 2 * |transformed|
    requires forall i :: 0 <= i < |transformed| ==>
      points[2 * i] == transformed[i].x && points[2 * i + 1] == transformed[i].y
    ensures points == Interleaved(transformed)
  {
    forall j | 0 <= j < |points|
      ensures points[j] == Interleaved(transformed)[j]
    {
      var i := j / 2;
      assert j == 2 * i + j % 2;
    }
  }

  // ---------------------------------------------------------------------
  // Logit range and threshold

  const MinSentinel: real := 9999.0
  const MaxSentinel: real := -9999.0

  /** The running minimum of the scan, started at the sentinel 9999. */
  function ScanMin(plane: seq<real>): real {
    if plane == [] then MinSentinel
    else
      var m := ScanMin(plane[..|plane| - 1]);
      var v := plane[|plane| - 1];
      if v < m then v else m
  }

  /** The running maximum of the scan, started at the sentinel -9999. */
  function ScanMax(plane: seq<real>): real {
    if plane == [] then MaxSentinel
    else
      var m := ScanMax(plane[..|plane| - 1]);
      var v := plane[|plane| - 1];
      if v > m then v else m
  }

  /** The scan yields min(9999, every logit) and max(-9999, every logit). */
  lemma {:induction false} ScanBounds(plane: seq<real>)
    ensures ScanMin(plane) <= MinSentinel && (ScanMin(plane) == MinSentinel || ScanMin(plane) in plane)
    ensures ScanMax(plane) >= MaxSentinel && (ScanMax(plane) == MaxSentinel || ScanMax(plane) in plane)
    ensures forall i :: 0 <= i < |plane| ==> ScanMin(plane) <= plane[i] <= ScanMax(plane)
  {
    if plane != [] {
      var prefix := plane[..|plane| - 1];
      ScanBounds(prefix);
      assert plane == prefix + [plane[|plane| - 1]];
    }
  }

  /** Within the sentinels the scan finds the true extremes of a non-empty
      plane. */
  lemma ScanFindsExtremes(plane: seq<real>)
    requires plane != []
    requires forall i :: 0 <= i < |plane| ==> MaxSentinel < plane[i] < MinSentinel
    ensures ScanMin(plane) in plane && ScanMax(plane) in plane
  {
    ScanBounds(plane);
  }

  /** The sentinels hide the true extremes of a plane lying wholly beyond
      them: a single logit of 10000 is reported with minimum 9999. */
  lemma SentinelMasksLargeLogits()
    ensures ScanMin([10000.0]) == 9999.0 && ScanMax([10000.0]) == 10000.0
  {
    assert [10000.0][..0] == [];
  }

  /** The min/max loop of `getMask`. */
  method LogitRange(plane: seq<real>) returns (minValue: real, maxValue: real)
    ensures minValue == ScanMin(plane) && maxValue == ScanMax(plane)
    ensures minValue <= MinSentinel && maxValue >= MaxSentinel
    ensures forall i :: 0 <= i < |plane| ==> minValue <= plane[i] <= maxValue
  {
    minValue := MinSentinel;
    maxValue := MaxSentinel;
    for i := 0 to |plane|
      invariant minValue == ScanMin(plane[..i]) && maxValue == ScanMax(plane[..i])
    {
      assert plane[..i + 1][..i] == plane[..i];
      var v := plane[i];
      if v > maxValue { maxValue := v; }
      if v < minValue { minValue := v; }
    }
    assert plane[..|plane|] == plane;
    ScanBounds(plane);
  }

  /** `-minValue / (maxValue - minValue)` in double arithmetic: when the two
      are equal the denominator is +0 and the quotient is an infinity or
      NaN. */
  function Threshold(lo: real, hi: real): (t: Fraction)
    ensures t.Finite? <==> lo != hi
    ensures t.Finite? ==> lo + t.value * (hi - lo) == 0.0
    ensures t == NotANumber <==> lo == hi == 0.0
  {
    if hi != lo then Finite(-lo / (hi - lo))
    else if lo < 0.0 then PositiveInfinity
    else if lo > 0.0 then NegativeInfinity
    else NotANumber
  }

  /** The threshold is the place of logit 0 in the window [lo, hi], so it
      lies in [0, 1] when the window straddles 0. */
  lemma ThresholdInUnitInterval(lo: real, hi: real)
    requires lo <= 0.0 <= hi && lo < hi
    ensures Threshold(lo, hi).Finite?
    ensures 0.0 <= Threshold(lo, hi).value <= 1.0
  {
    var t := Threshold(lo, hi).value;
    assert t == -lo / (hi - lo);
    NonNegativeQuotient(-lo, hi - lo);
    assert (1.0 - t) * (hi - lo) == hi;
    QuotientOf(1.0 - t, hi, hi - lo);
    NonNegativeQuotient(hi, hi - lo);
  }

  lemma QuotientOf(x: real, a: real, b: real)
    requires b != 0.0 && x * b == a
    ensures x == a / b
  {
  }

  lemma NonNegativeQuotient(a: real, b: real)
    requires a >= 0.0 && b > 0.0
    ensures a / b >= 0.0
  {
  }

  /** A plane of equal logits (inside the sentinels) has no finite
      threshold: nothing guards the division. */
  lemma {:induction false} ConstantPlaneHasNoThreshold(plane: seq<real>, v: real)
    requires plane != [] && MaxSentinel < v < MinSentinel
    requires forall i :: 0 <= i < |plane| ==> plane[i] == v
    ensures ScanMin(plane) == v == ScanMax(plane)
    ensures !Threshold(ScanMin(plane), ScanMax(plane)).Finite?
  {
    ScanBounds(plane);
    assert plane[0] == v;
  }

  // ---------------------------------------------------------------------
  // The engine object

  /** `ensureModelsAreLoaded` as seen from the current `initialized`: still
      waiting, resumed with the engine, or resumed by throwing. */
  datatype LoadOutcome = Waiting | Loaded | Failed(error: SAM2Error)

  class SAM2 {
    var imageEncodings: Option<ImageEncoderOutput>
    var promptEncodings: Option<PromptEncoderOutput>
    var thresholdedMask: Option<Image>
    var initialized: Option<bool>

    var imageEncoderModel: Option<ImageEncoderModel>
    var promptEncoderModel: Option<PromptEncoderModel>
    var maskDecoderModel: Option<MaskDecoderModel>

    /** Each model is present exactly when loading has succeeded. */
    ghost predicate Valid()
      reads this
    {
      && (imageEncoderModel.Some? <==> initialized == Some(true))
      && (promptEncoderModel.Some? <==> initialized == Some(true))
      && (maskDecoderModel.Some? <==> initialized == Some(true))
    }

    /** `init()`, before the loading task has finished. */
    constructor ()
      ensures Valid() && initialized.None?
      ensures imageEncoderModel.None? && promptEncoderModel.None? && maskDecoderModel.None?
      ensures imageEncodings.None? && promptEncodings.None? && thresholdedMask.None?
    {
      imageEncodings := None;
      promptEncodings := None;
      thresholdedMask := None;
      initialized := None;
      imageEncoderModel := None;
      promptEncoderModel := None;
      maskDecoderModel := None;
    }

    /** The state effect of `loadModels` once the detached task returns: the
      three handles on success, or `initialized = false` on failure. */
    method FinishLoading(loaded: Result<(ImageEncoderModel, PromptEncoderModel, MaskDecoderModel), SAM2Error>)
      requires Valid() && initialized.None?
      modifies this`initialized, this`imageEncoderModel, this`promptEncoderModel, this`maskDecoderModel
      ensures Valid()
      ensures initialized == Some(loaded.Ok?)
      ensures loaded.Ok? ==>
        && imageEncoderModel == Some(loaded.value.0)
        && promptEncoderModel == Some(loaded.value.1)
        && maskDecoderModel == Some(loaded.value.2)
      ensures loaded.Err? ==> imageEncoderModel.None? && promptEncoderModel.None? && maskDecoderModel.None?
    {
      if loaded.Ok? {
        initialized := Some(true);
        imageEncoderModel := Some(loaded.value.0);
        promptEncoderModel := Some(loaded.value.1);
        maskDecoderModel := Some(loaded.value.2);
      } else {
        initialized := Some(false);
      }
    }

    /** What `ensureModelsAreLoaded` does with the current `initialized`:
      it resumes with the engine only when every model is present, and
      throws `modelNotLoaded` when loading failed. */
    function EnsureModelsAreLoaded(): (r: LoadOutcome)
      requires Valid()
      reads this
      ensures r == Loaded <==> imageEncoderModel.Some? && promptEncoderModel.Some? && maskDecoderModel.Some?
      ensures r.Failed? ==> r.error == ModelNotLoaded
      ensures r == Waiting <==> initialized.None?
    {
      match initialized
      case None => Waiting
      case Some(true) => Loaded
      case Some(false) => Failed(ModelNotLoaded)
    }

    /** `getImageEncoding(from:)`, either overload. */
    method GetImageEncoding(input: EncoderInput) returns (res: Result<(), SAM2Error>)
      modifies this`imageEncodings
      ensures imageEncoderModel.None? ==> res == Err(ModelNotLoaded) && imageEncodings == old(imageEncodings)
      ensures imageEncoderModel.Some? ==>
        match imageEncoderModel.value.predict(input)
        case Ok(e) => res.Ok? && imageEncodings == Some(e)
        case Err(err) => res == Err(err) && imageEncodings == old(imageEncodings)
    {
      if imageEncoderModel.None? {
        return Err(ModelNotLoaded);
      }
      var encoding := imageEncoderModel.value.predict(input);
      match encoding
      case Ok(e) =>
        imageEncodings := Some(e);
        res := Ok(());
      case Err(err) =>
        res := Err(err);
    }

    /** `getPromptEncoding(from:with:)`: the coordinates go into model space
      normalised by `size`, the labels are the category codes. */
    method GetPromptEncoding(allPoints: seq<SamPoint>, size: Size) returns (res: Result<(), SAM2Error>)
      requires promptEncoderModel.Some? ==> NonDegenerate(size)
      modifies this`promptEncodings
      ensures promptEncoderModel.None? ==> res == Err(ModelNotLoaded) && promptEncodings == old(promptEncodings)
      ensures var p := PromptEncodingOf(promptEncoderModel, allPoints, size);
        && (p.Ok? ==> res.Ok? && promptEncodings == Some(p.value))
        && (p.Err? ==> res == Err(p.error) && promptEncodings == old(promptEncodings))
    {
      if promptEncoderModel.None? {
        return Err(ModelNotLoaded);
      }
      var transformed := TransformCoords(Coordinates(allPoints), true, size);
      var points, labels := PromptArrays(transformed, allPoints);
      var encoding := promptEncoderModel.value.predict(points, labels);
      match encoding
      case Ok(e) =>
        promptEncodings := Some(e);
        res := Ok(());
      case Err(err) =>
        res := Err(err);
    }

    /** `getMask(for:)`. Without a decoder it throws; without both encodings
      it returns nil without decoding; otherwise it decodes plane [0, 2],
      windows it by the scanned range, keeps the greyscale rendering in
      `thresholdedMask`, and resizes it with the zero-logit threshold. */
    method GetMask(originalSize: Size, renderer: Renderer) returns (res: Result<Option<Image>, SAM2Error>)
      modifies this`thresholdedMask
      ensures maskDecoderModel.None? ==> res == Err(ModelNotLoaded) && thresholdedMask == old(thresholdedMask)
      ensures maskDecoderModel.Some? && (imageEncodings.None? || promptEncodings.None?) ==>
        res == Ok(None) && thresholdedMask == old(thresholdedMask)
      ensures res == MaskOf(maskDecoderModel, imageEncodings, promptEncodings, originalSize, renderer)
      ensures thresholdedMask == GrayscaleMaskOf(maskDecoderModel, imageEncodings, promptEncodings, renderer, old(thresholdedMask))
    {
      if maskDecoderModel.None? {
        return Err(ModelNotLoaded);
      }
      if imageEncodings.None? || promptEncodings.None? {
        return Ok(None);
      }
      var output := maskDecoderModel.value.predict(DecoderInputOf(imageEncodings.value, promptEncodings.value));
      if output.Err? {
        return Err(output.error);
      }
      var lowFeatureMask := output.value[0][2];
      var minValue, maxValue := LogitRange(lowFeatureMask);
      var threshold := Threshold(minValue, maxValue);
      var maskImage := renderer.grayscale(lowFeatureMask, minValue, maxValue);
      if maskImage.None? {
        return Ok(None);
      }
      thresholdedMask := maskImage;
      var resized := renderer.resizeThresholded(maskImage.value, originalSize, threshold);
      match resized
      case Ok(img) => res := Ok(Some(img));
      case Err(err) => res := Err(err);
    }
  }

  /** What `getPromptEncoding` produces: `modelNotLoaded` without an
      encoder, otherwise the encoder's prediction on the model-space
      coordinates, laid out flat, and the category codes. */
  function PromptEncodingOf(model: Option<PromptEncoderModel>, allPoints: seq<SamPoint>, size: Size): (r: Result<PromptEncoderOutput, SAM2Error>)
    requires model.Some? ==> NonDegenerate(size)
    ensures model.None? ==> r == Err(ModelNotLoaded)
  {
    if model.None? then Err(ModelNotLoaded)
    else model.value.predict(Interleaved(TransformCoords(Coordinates(allPoints), true, size)), Labels(allPoints))
  }

  /** What `getMask(for:)` returns for a decoder and the stored encodings:
      `modelNotLoaded` without a decoder, nil without both encodings or
      when the greyscale rendering fails, otherwise plane [0][2] rendered
      over its scanned range and resized with the zero-logit threshold. */
  function MaskOf(
    decoder: Option<MaskDecoderModel>, image: Option<ImageEncoderOutput>, prompt: Option<PromptEncoderOutput>,
    originalSize: Size, renderer: Renderer): (r: Result<Option<Image>, SAM2Error>)
    ensures decoder.None? ==> r == Err(ModelNotLoaded)
    ensures decoder.Some? && (image.None? || prompt.None?) ==> r == Ok(None)
  {
    if decoder.None? then Err(ModelNotLoaded)
    else if image.None? || prompt.None? then Ok(None)
    else
      match decoder.value.predict(DecoderInputOf(image.value, prompt.value))
      case Err(err) => Err(err)
      case Ok(masks) =>
        var plane := masks[0][2];
        var lo, hi := ScanMin(plane), ScanMax(plane);
        match renderer.grayscale(plane, lo, hi)
        case None => Ok(None)
        case Some(gray) =>
          match renderer.resizeThresholded(gray, originalSize, Threshold(lo, hi))
          case Ok(img) => Ok(Some(img))
          case Err(err) => Err(err)
  }

  /** `thresholdedMask` after `getMask(for:)`: the greyscale rendering once
      it exists, even when the resize after it throws; otherwise the
      previous value. */
  function GrayscaleMaskOf(
    decoder: Option<MaskDecoderModel>, image: Option<ImageEncoderOutput>, prompt: Option<PromptEncoderOutput>,
    renderer: Renderer, previous: Option<Image>): (r: Option<Image>)
    ensures decoder.None? || image.None? || prompt.None? ==> r == previous
    ensures r != previous ==> r.Some?
  {
    if decoder.None? || image.None? || prompt.None? then previous
    else
      match decoder.value.predict(DecoderInputOf(image.value, prompt.value))
      case Err(_) => previous
      case Ok(masks) =>
        var plane := masks[0][2];
        match renderer.grayscale(plane, ScanMin(plane), ScanMax(plane))
        case None => previous
        case Some(gray) => Some(gray)
  }

  /** The decoder's inputs: the three image parts and the two prompt parts. */
  function DecoderInputOf(image: ImageEncoderOutput, prompt: PromptEncoderOutput): DecoderInput {
    DecoderInput(image.imageEmbedding, prompt.sparseEmbeddings, prompt.denseEmbeddings, image.featsS0, image.featsS1)
  }
}
