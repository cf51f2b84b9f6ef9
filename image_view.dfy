/** The annotation state of SAM2-Demo/Views/ImageView.swift: the prompt
    point sequence, the bounding-box drag gesture, point taps, the rule that
    triggers a forward pass, and the forward pass itself, run here to
    completion in one step. */
module ImageView {
  import opened Wrappers
  import opened Geometry
  import opened Models
  import opened SAM2Core
  import Text

  /** `boundingBoxes.flatMap { $0.points }`. */
  function BoxPoints(boxes: seq<SamBox>): (ps: seq<SamPoint>)
    ensures |ps| == 2 * |boxes|
  {
    if boxes == [] then [] else boxes[0].Points() + BoxPoints(boxes[1..])
  }

  /** `pointSequence`: the box-derived points, then the tapped points. */
  function PointSequence(boxes: seq<SamBox>, points: seq<SamPoint>): (ps: seq<SamPoint>)
    ensures |ps| == 2 * |boxes| + |points|
    ensures ps[2 * |boxes|..] == points
  {
    BoxPoints(boxes) + points
  }

  /** Box i contributes entries 2i (its origin) and 2i + 1 (its end). */
  lemma {:induction false} BoxPointsAt(boxes: seq<SamBox>, i: nat)
    requires i < |boxes|
    ensures BoxPoints(boxes)[2 * i] == boxes[i].Points()[0]
    ensures BoxPoints(boxes)[2 * i + 1] == boxes[i].Points()[1]
  {
    if i > 0 {
      BoxPointsAt(boxes[1..], i - 1);
    }
  }

  /** The prompt lists every box as its origin and end, in box order, then
      the tapped points in tap order. */
  lemma PointSequenceLayout(boxes: seq<SamBox>, points: seq<SamPoint>)
    ensures |PointSequence(boxes, points)| == 2 * |boxes| + |points|
    ensures forall i :: 0 <= i < |boxes| ==>
      && PointSequence(boxes, points)[2 * i].coordinates == boxes[i].startPoint
      && PointSequence(boxes, points)[2 * i].category == BoxOriginCategory
      && PointSequence(boxes, points)[2 * i + 1].coordinates == boxes[i].endPoint
      && PointSequence(boxes, points)[2 * i + 1].category == BoxEndCategory
    ensures forall j :: 0 <= j < |points| ==> PointSequence(boxes, points)[2 * |boxes| + j] == points[j]
  {
    forall i | 0 <= i < |boxes|
      ensures PointSequence(boxes, points)[2 * i] == boxes[i].Points()[0]
      ensures PointSequence(boxes, points)[2 * i + 1] == boxes[i].Points()[1]
    {
      BoxPointsAt(boxes, i);
    }
  }

  /** How many forward passes an edit starts: the two `onChange` handlers
      each start one when their list's count changed and the list is not
      empty afterwards. */
  function ForwardPasses(oldPoints: seq<SamPoint>, newPoints: seq<SamPoint>, oldBoxes: seq<SamBox>, newBoxes: seq<SamBox>): (n: nat)
    ensures n <= 2
    ensures n == 0 <==>
      (|oldPoints| == |newPoints| || newPoints == []) && (|oldBoxes| == |newBoxes| || newBoxes == [])
  {
    (if |oldPoints| != |newPoints| && newPoints != [] then 1 else 0)
    + (if |oldBoxes| != |newBoxes| && newBoxes != [] then 1 else 0)
  }

  /** Emptying both lists never starts a pass, whatever they held. */
  lemma ClearingStartsNoPass(points: seq<SamPoint>, boxes: seq<SamBox>)
    ensures ForwardPasses(points, [], boxes, []) == 0
  {
  }

  /** The title of the next uncommitted layer, `"Untitled \(n + 1)"`. */
  function UntitledTitle(committed: nat): (t: string)
    ensures |t| > 9 && t[..9] == "Untitled "
    ensures Text.AllDigits(t[9..]) && Text.DigitsValue(t[9..]) == committed + 1
    ensures t[9] != '0'
  {
    var t := "Untitled " + Text.NatToString(committed + 1);
    assert t[9..] == Text.NatToString(committed + 1);
    t
  }

  /** A tapped point is stored normalised by the view size, a box corner in
      view pixels; the transform into model space divides both by the view
      size, so a tap reaches the model divided by it twice. */
  lemma TapAndCornerScaling(location: Point2, size: Size, id: Uuid, now: Date, category: Category)
    requires NonDegenerate(size)
    ensures var tapped := SamPoint(id, FromSize(location, size), category, now);
      var corner := SamBox(id, location, location, category, now).Points()[0];
      var model := TransformCoords([tapped.coordinates, corner.coordinates], true, size);
      && model[1] == Point2(location.x / size.width * ModelSide, location.y / size.height * ModelSide)
      && model[0] == Point2(location.x / size.width / size.width * ModelSide,
                            location.y / size.height / size.height * ModelSide)
  {
  }

  /** The layer a decoded mask becomes: default tint, shown, titled after
      the number of layers already committed. */
  function NewSegmentation(image: Image, newId: Uuid, committed: nat): (s: Segmentation)
    ensures s.id == newId && s.image == image && s.title == UntitledTitle(committed)
    ensures !s.isHidden && s.firstAppearance.None? && s.tintColor == DefaultTint && TintConsistent(s)
  {
    MakeSegmentation(newId, image, title := UntitledTitle(committed))
  }

  /** `originalSize ?? .zero`. */
  function SizeOrZero(size: Option<Size>): (s: Size)
    ensures size.Some? ==> s == size.value
    ensures size.None? ==> s.width == 0.0 && s.height == 0.0
  {
    if size.Some? then size.value else Size(0.0, 0.0)
  }

  class ImageViewState {
    var selectedTool: Option<Tool>
    var selectedCategory: Option<Category>
    var selectedPoints: seq<SamPoint>
    var boundingBoxes: seq<SamBox>
    var currentBox: Option<SamBox>
    var segmentationImages: seq<Segmentation>
    var currentSegmentation: Option<Segmentation>
    var imageSize: Size
    var originalSize: Option<Size>
    var animationPoint: Point2
    var error: Option<SAM2Error>
    const sam2: SAM2

    /** The memberwise init: every binding is the parent's current state;
      only the animation point and the error start afresh. */
    constructor (sam2: SAM2, selectedTool: Option<Tool>, selectedCategory: Option<Category>,
                 selectedPoints: seq<SamPoint>, boundingBoxes: seq<SamBox>, currentBox: Option<SamBox>,
                 segmentationImages: seq<Segmentation>, currentSegmentation: Option<Segmentation>,
                 imageSize: Size, originalSize: Option<Size>)
      ensures this.sam2 == sam2 && this.imageSize == imageSize && this.originalSize == originalSize
      ensures this.selectedTool == selectedTool && this.selectedCategory == selectedCategory
      ensures this.selectedPoints == selectedPoints && this.boundingBoxes == boundingBoxes
      ensures this.currentBox == currentBox && this.segmentationImages == segmentationImages
      ensures this.currentSegmentation == currentSegmentation
      ensures error.None? && animationPoint == Zero
    {
      this.sam2 := sam2;
      this.selectedTool := selectedTool;
      this.selectedCategory := selectedCategory;
      this.selectedPoints := selectedPoints;
      this.boundingBoxes := boundingBoxes;
      this.currentBox := currentBox;
      this.segmentationImages := segmentationImages;
      this.currentSegmentation := currentSegmentation;
      this.imageSize := imageSize;
      this.originalSize := originalSize;
      animationPoint := Zero;
      error := None;
    }

    /** `onChanged` of the drag gesture: the first event opens a box from
      the drag's start to the pointer, later ones move only its end. */
    method DragChanged(startLocation: Point2, location: Point2, newId: Uuid, now: Date)
      requires selectedTool == Some(BoundingBoxTool) && currentBox.None? ==> selectedCategory.Some?
      modifies this`currentBox
      ensures selectedTool != Some(BoundingBoxTool) ==> currentBox == old(currentBox)
      ensures selectedTool == Some(BoundingBoxTool) && old(currentBox).None? ==>
        currentBox == Some(SamBox(newId, startLocation, location, selectedCategory.value, now))
      ensures selectedTool == Some(BoundingBoxTool) && old(currentBox).Some? ==>
        && currentBox.Some?
        && currentBox.value.endPoint == location
        && currentBox.value.(endPoint := old(currentBox).value.endPoint) == old(currentBox).value
    {
      if selectedTool != Some(BoundingBoxTool) {
        return;
      }
      if currentBox.None? {
        currentBox := Some(SamBox(newId, startLocation, location, selectedCategory.value, now));
      } else {
        currentBox := Some(currentBox.value.(endPoint := location));
      }
    }

    /** `onEnded` of the drag gesture: the open box is committed to the end
      of the list, the animation starts from its midpoint, and one forward
      pass follows. */
    method DragEnded()
      modifies this`boundingBoxes, this`animationPoint, this`currentBox
      ensures selectedTool != Some(BoundingBoxTool) || old(currentBox).None? ==>
        boundingBoxes == old(boundingBoxes) && animationPoint == old(animationPoint) && currentBox == old(currentBox)
      ensures selectedTool == Some(BoundingBoxTool) && old(currentBox).Some? ==>
        && boundingBoxes == old(boundingBoxes) + [old(currentBox).value]
        && animationPoint == old(currentBox).value.Midpoint()
        && currentBox.None?
      ensures ForwardPasses(selectedPoints, selectedPoints, old(boundingBoxes), boundingBoxes) ==
        if selectedTool == Some(BoundingBoxTool) && old(currentBox).Some? then 1 else 0
    {
      if selectedTool != Some(BoundingBoxTool) {
        return;
      }
      if currentBox.Some? {
        var box := currentBox.value;
        boundingBoxes := boundingBoxes + [box];
        animationPoint := box.Midpoint();
        currentBox := None;
      }
    }

    /** `handleTap` and `placePoint`: with the point tool, one point at the
      tap location normalised by the view size, in the selected category,
      and one forward pass. */
    method HandleTap(location: Point2, newId: Uuid, now: Date)
      requires selectedTool == Some(PointTool) ==> selectedCategory.Some? && NonDegenerate(imageSize)
      modifies this`selectedPoints, this`animationPoint
      ensures selectedTool != Some(PointTool) ==>
        selectedPoints == old(selectedPoints) && animationPoint == old(animationPoint)
      ensures selectedTool == Some(PointTool) ==>
        && selectedPoints == old(selectedPoints) + [SamPoint(newId, FromSize(location, imageSize), selectedCategory.value, now)]
        && animationPoint == location
      ensures ForwardPasses(old(selectedPoints), selectedPoints, boundingBoxes, boundingBoxes) ==
        if selectedTool == Some(PointTool) then 1 else 0
    {
      if selectedTool == Some(PointTool) {
        PlacePoint(location, newId, now);
        animationPoint := location;
      }
    }

    method PlacePoint(coordinates: Point2, newId: Uuid, now: Date)
      requires selectedCategory.Some? && NonDegenerate(imageSize)
      modifies this`selectedPoints
      ensures selectedPoints == old(selectedPoints) + [SamPoint(newId, FromSize(coordinates, imageSize), selectedCategory.value, now)]
    {
      var samPoint := SamPoint(newId, FromSize(coordinates, imageSize), selectedCategory.value, now);
      selectedPoints := selectedPoints + [samPoint];
    }

    /** `performForwardPass`, run to completion: encode the prompt built
      from `pointSequence`, decode a mask at the original size (zero when
      unknown) and, when there is one, make it the current segmentation,
      titled after the committed layers. An error is recorded and leaves the
      current segmentation alone. */
    method PerformForwardPass(renderer: Renderer, newId: Uuid)
      requires sam2.promptEncoderModel.Some? ==> NonDegenerate(imageSize)
      modifies this`error, this`currentSegmentation, sam2`promptEncodings, sam2`thresholdedMask
      ensures sam2.promptEncoderModel.None? ==>
        error == Some(ModelNotLoaded) && currentSegmentation == old(currentSegmentation)
      ensures var p := PromptEncodingOf(sam2.promptEncoderModel, PointSequence(boundingBoxes, selectedPoints), imageSize);
        p.Err? ==>
          && error == Some(p.error) && currentSegmentation == old(currentSegmentation)
          && sam2.promptEncodings == old(sam2.promptEncodings) && sam2.thresholdedMask == old(sam2.thresholdedMask)
      ensures var p := PromptEncodingOf(sam2.promptEncoderModel, PointSequence(boundingBoxes, selectedPoints), imageSize);
        p.Ok? ==>
          && sam2.promptEncodings == Some(p.value)
          && sam2.thresholdedMask ==
             GrayscaleMaskOf(sam2.maskDecoderModel, sam2.imageEncodings, Some(p.value), renderer, old(sam2.thresholdedMask))
          && match MaskOf(sam2.maskDecoderModel, sam2.imageEncodings, Some(p.value), SizeOrZero(originalSize), renderer)
             case Err(e) => error == Some(e) && currentSegmentation == old(currentSegmentation)
             case Ok(None) => error == old(error) && currentSegmentation == old(currentSegmentation)
             case Ok(Some(image)) =>
               error == old(error) && currentSegmentation == Some(NewSegmentation(image, newId, |segmentationImages|))
    {
      var encoded := sam2.GetPromptEncoding(PointSequence(boundingBoxes, selectedPoints), imageSize);
      if encoded.Err? {
        error := Some(encoded.error);
        return;
      }
      var mask := sam2.GetMask(SizeOrZero(originalSize), renderer);
      match mask
      case Err(e) =>
        error := Some(e);
      case Ok(None) =>
      case Ok(Some(image)) =>
        var segmentationNumber := |segmentationImages|;
        currentSegmentation := Some(NewSegmentation(image, newId, segmentationNumber));
    }
  }
}
