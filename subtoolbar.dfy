/** SAM2-Demo/Views/SubtoolbarView.swift: the bar that appears while there
    are prompts, and its Reset button. */
module SubToolbar {
  import opened Models
  import ImageView

  class SubToolbarState {
    var selectedPoints: seq<SamPoint>
    var boundingBoxes: seq<SamBox>
    var segmentationImages: seq<Image>

    constructor (points: seq<SamPoint>, boxes: seq<SamBox>, images: seq<Image>)
      ensures selectedPoints == points && boundingBoxes == boxes && segmentationImages == images
    {
      selectedPoints := points;
      boundingBoxes := boxes;
      segmentationImages := images;
    }

    /** The bar is drawn while there is a point or a box. */
    predicate IsShown()
      reads this
    {
      |selectedPoints| > 0 || |boundingBoxes| > 0
    }

    /** The Reset button's `disabled` condition. */
    predicate ResetDisabled()
      reads this
    {
      selectedPoints == [] && boundingBoxes == []
    }

    /** The button is only drawn inside the bar, and there it is never
      disabled: the two conditions are complements. */
    lemma ShownExactlyWhenResetEnabled()
      ensures IsShown() <==> !ResetDisabled()
    {
    }

    /** `resetAll`: all three lists become empty, so the bar disappears and
      no forward pass starts. The new state does not depend on the old one,
      so a second reset changes nothing. */
    method ResetAll()
      modifies this
      ensures selectedPoints == [] && boundingBoxes == [] && segmentationImages == []
      ensures !IsShown() && ResetDisabled()
      ensures ImageView.ForwardPasses(old(selectedPoints), selectedPoints, old(boundingBoxes), boundingBoxes) == 0
    {
      selectedPoints := [];
      boundingBoxes := [];
      segmentationImages := [];
    }
  }
}
