/** SAM2-Demo/Views/AnnotationListView.swift: a layer's row and its
    visibility button. */
module AnnotationList {
  import opened Models

  /** The system image on the visibility button. */
  function EyeIconName(s: Segmentation): (name: string)
    ensures name == "eye.slash.fill" <==> s.isHidden
    ensures name == "eye.fill" <==> !s.isHidden
  {
    if s.isHidden then "eye.slash.fill" else "eye.fill"
  }

  /** Pressing the button always changes its icon, and pressing it twice
      brings the first icon back. */
  lemma EyeIconFlips(s: Segmentation)
    ensures EyeIconName(ToggleHidden(s)) != EyeIconName(s)
    ensures EyeIconName(ToggleHidden(ToggleHidden(s))) == EyeIconName(s)
    ensures EyeIconName(s) == "eye.slash.fill" <==> s.isHidden
  {
  }

  class AnnotationRow {
    var segmentation: Segmentation

    constructor (segmentation: Segmentation)
      ensures this.segmentation == segmentation
    {
      this.segmentation := segmentation;
    }

    /** The eye button: `segmentation.isHidden.toggle()`. */
    method PressEye()
      modifies this
      ensures segmentation == ToggleHidden(old(segmentation))
      ensures segmentation.isHidden == !old(segmentation.isHidden)
      ensures segmentation.title == old(segmentation.title) && segmentation.tintColor == old(segmentation.tintColor)
      ensures segmentation.image == old(segmentation.image) && segmentation.tintedImage == old(segmentation.tintedImage)
    {
      segmentation := ToggleHidden(segmentation);
    }
  }
}
