/** SAM2-Demo/Views/MaskEditor.swift: re-tinting the selected layers when
    the colour picker changes. */
module MaskEditor {
  import opened Models

  /** `firstIndex(where: { $0.id == id })`, or `|layers|` when no layer has
      that identifier. */
  function FirstIndexOf(layers: seq<Segmentation>, id: Uuid): (k: nat)
    ensures k <= |layers|
    ensures k < |layers| ==> layers[k].id == id
    ensures forall j :: 0 <= j < k ==> layers[j].id != id
  {
    if layers == [] then 0
    else if layers[0].id == id then 0
    else 1 + FirstIndexOf(layers[1..], id)
  }

  /** Layer i is the first layer carrying one of `ids`. */
  predicate IsFirstSelected(layers: seq<Segmentation>, ids: set<Uuid>, i: nat)
    requires i < |layers|
  {
    layers[i].id in ids && FirstIndexOf(layers, layers[i].id) == i
  }

  /** The layers after every identifier of `ids` has re-tinted its first
      layer. */
  function Retinted(layers: seq<Segmentation>, ids: set<Uuid>, c: Color): (r: seq<Segmentation>)
    ensures |r| == |layers|
  {
    seq(|layers|, i requires 0 <= i < |layers| =>
      if IsFirstSelected(layers, ids, i) then SetTintColor(layers[i], c) else layers[i])
  }

  /** Re-tinting keeps the list's length and identifiers in place, leaves
      the unselected layers alone, and gives the first layer of each
      selected identifier the new colour. */
  lemma RetintedEffect(layers: seq<Segmentation>, ids: set<Uuid>, c: Color)
    ensures forall i :: 0 <= i < |layers| ==> Retinted(layers, ids, c)[i].id == layers[i].id
    ensures forall i :: 0 <= i < |layers| && layers[i].id !in ids ==> Retinted(layers, ids, c)[i] == layers[i]
    ensures forall id :: id in ids && FirstIndexOf(layers, id) < |layers| ==>
      Retinted(layers, ids, c)[FirstIndexOf(layers, id)].tintColor == c
  {
  }

  /** Identifiers that match no layer are ignored. */
  lemma RetintIgnoresUnknown(layers: seq<Segmentation>, ids: set<Uuid>, id: Uuid, c: Color)
    requires FirstIndexOf(layers, id) == |layers|
    ensures Retinted(layers, ids + {id}, c) == Retinted(layers, ids, c)
  {
  }

  /** Re-tinting changes no identifier, so first indices are kept. */
  lemma {:induction false} FirstIndexOfRetinted(layers: seq<Segmentation>, layers': seq<Segmentation>, id: Uuid)
    requires |layers'| == |layers|
    requires forall i :: 0 <= i < |layers| ==> layers'[i].id == layers[i].id
    ensures FirstIndexOf(layers', id) == FirstIndexOf(layers, id)
  {
    if layers != [] {
      FirstIndexOfRetinted(layers[1..], layers'[1..], id);
    }
  }

  /** One more identifier re-tints its first layer, if it has one. */
  lemma RetintOneMore(layers: seq<Segmentation>, done: set<Uuid>, id: Uuid, c: Color)
    requires id !in done
    ensures var k := FirstIndexOf(layers, id);
      Retinted(layers, done + {id}, c) ==
        if k < |layers| then Retinted(layers, done, c)[k := SetTintColor(layers[k], c)]
        else Retinted(layers, done, c)
  {
    var k := FirstIndexOf(layers, id);
    var before, after := Retinted(layers, done, c), Retinted(layers, done + {id}, c);
    forall i | 0 <= i < |layers|
      ensures after[i] == if i == k then SetTintColor(layers[k], c) else before[i]
    {
      if i == k {
        assert IsFirstSelected(layers, done + {id}, i) && !IsFirstSelected(layers, done, i);
      } else {
        assert IsFirstSelected(layers, done + {id}, i) == IsFirstSelected(layers, done, i);
      }
    }
  }

  class MaskEditorState {
    var segmentationImages: seq<Segmentation>
    var selectedSegmentations: set<Uuid>
    var bgColor: Color

    constructor (layers: seq<Segmentation>, selected: set<Uuid>)
      ensures segmentationImages == layers && selectedSegmentations == selected && bgColor == DefaultTint
    {
      segmentationImages := layers;
      selectedSegmentations := selected;
      bgColor := DefaultTint;
    }

    /** `updateSelectedSegmentationsColor`: for each selected identifier, in
      whatever order the set yields them, the first layer with it is
      re-tinted. */
    method UpdateSelectedSegmentationsColor(newColor: Color)
      modifies this`segmentationImages
      ensures segmentationImages == Retinted(old(segmentationImages), selectedSegmentations, newColor)
    {
      ghost var original := segmentationImages;
      var remaining := selectedSegmentations;
      while remaining != {}
        invariant remaining <= selectedSegmentations
        invariant segmentationImages == Retinted(original, selectedSegmentations - remaining, newColor)
        decreases remaining
      {
        var id :| id in remaining;
        ghost var done := selectedSegmentations - remaining;
        FirstIndexOfRetinted(original, segmentationImages, id);
        var index := FirstIndexOf(segmentationImages, id);
        if index < |segmentationImages| {
          segmentationImages := segmentationImages[index := SetTintColor(segmentationImages[index], newColor)];
        }
        RetintOneMore(original, done, id, newColor);
        remaining := remaining - {id};
        assert selectedSegmentations - remaining == done + {id};
      }
    }

    /** The picker's `onChange`: a different colour is stored and applied to
      the selected layers. */
    method PickColor(newColor: Color)
      modifies this`bgColor, this`segmentationImages
      ensures bgColor == newColor
      ensures segmentationImages ==
        if newColor != old(bgColor) then Retinted(old(segmentationImages), selectedSegmentations, newColor)
        else old(segmentationImages)
    {
      if newColor != bgColor {
        bgColor := newColor;
        UpdateSelectedSegmentationsColor(newColor);
      }
    }
  }
}
