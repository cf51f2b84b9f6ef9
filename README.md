# SAM2 Studio annotation core in Dafny

SAM2 Studio is a macOS demo of Segment Anything 2 on CoreML. The user loads
an image and marks objects in it with prompt points (foreground or
background) and bounding boxes. Each change to the prompts runs the prompt
encoder and the mask decoder. The decoded mask becomes a new segmentation
layer, which the user can then tint and show or hide. A command-line tool
loads the models, encodes one image and accepts `x,y` point arguments; its
decoding and export are commented out in the source.

This project models the part of the application that decides things:

- the segmentation engine (`SAM2`): its model handles and stored
  encodings, the coordinate transform into the 1024x1024 model space, the
  prompt arrays, the min/max scan of the decoded logits and the
  zero-logit threshold, and the in-place pass that makes black pixels
  transparent;
- the annotation data types: category codes, boxes and their two prompt
  points, and segmentation layers with their derived tinted image;
- the annotation state of the views: point taps, the box drag gesture,
  the eraser, the rule that starts a forward pass, the title of a new
  layer, reset, and clearing the points when an image is imported;
- layer edits: re-tinting the selected layers, toggling visibility and
  choosing the colour furthest from the ones in use;
- the CLI's `x,y` point-argument parser and the video view's `HH:MM:SS`
  formatter.

`CGFloat` and `Double` are exact `real`s. The CoreML models are datatypes
that carry their prediction function. The CoreImage rendering is a
`Renderer` value whose functions the caller supplies. Views and objects
whose fields the source reassigns are classes: `SAM2`, `ImageViewState`,
`ContentViewState`, `SubToolbarState`, `MaskEditorState` and
`AnnotationRow`. Swift value types are datatypes. The pixel pass works in
place on an `array<UInt8>`.

Modules, one per source file: `Geometry`, `Text`, `Arithmetic` and
`Wrappers` hold shared helpers. `Models`, `SAM2Core`, `SAM2Pixels`,
`ImageView`, `ContentView`, `SubToolbar`, `MaskEditor`, `AnnotationList`,
`ColorExtension`, `MainCommand` and `VideoView` follow the source.

## Model

| member | source | states |
|---|---|---|
| Geometry.FromSize | SAM2-Demo/Views/ImageView.swift:144-146 | The result scaled back by the size is the input point, so each component is divided by the matching extent. |
| Geometry.ToSize | SAM2-Demo/Views/ImageView.swift:148-150 | For a size with non-zero extents, `fromSize` undoes `toSize`. |
| Geometry.ToSizeFromSize | SAM2-Demo/Views/ImageView.swift:143-151 | `toSize(fromSize(p, s), s) == p` whenever both extents of `s` are non-zero. |
| Models.CategoryType.RawValue | SAM2-Demo/Common/Models.swift:11-15 | Every label code lies in 0..3. |
| Models.CategoryTypeFromRawValue | SAM2-Demo/Common/Models.swift:11-15 | `init?(rawValue:)` succeeds exactly for codes 0..3 and returns the case carrying that code. |
| Models.RawValueRoundTrip | SAM2-Demo/Common/Models.swift:11-15 | Decoding a case's code gives the case back, so background=0, foreground=1, boxOrigin=2 and boxEnd=3 are pairwise distinct. |
| Models.CategoryType.Description | SAM2-Demo/Common/Models.swift:17-28 | Each case has its fixed display name: "Background", "Foreground", "Box Origin" and "Box End". `StaticCategoriesConsistent` proves that these are the names of the static categories of the same type. |
| Models.StaticCategoriesConsistent | SAM2-Demo/Common/Models.swift:17-68 | Each static category has the type of the same name, its `typeDescription` equals its name, and the four codes are distinct. |
| Models.SamBox.Midpoint | SAM2-Demo/Common/Models.swift:85-90 | The midpoint is equally far from both corners in each component, and it equals the start when the corners coincide. |
| Models.SamBox.Points | SAM2-Demo/Common/Models.swift:93-97 | A box gives exactly two points: the start corner as Box Origin (code 2), then the end corner as Box End (code 3). |
| Models.MakeSegmentation | SAM2-Demo/Common/Models.swift:113-120 | The initialiser stores its arguments, with defaults of the Dodger-blue tint, empty title, no first appearance and shown. The tinted image is the given image tinted in that colour. |
| Models.SetTintColor | SAM2-Demo/Common/Models.swift:102-106 | Assigning a tint stores it and recomputes the tinted image from the image and the new tint. Every other field stays as it was. |
| Models.ToggleHidden | SAM2-Demo/Views/AnnotationListView.swift:29 | `isHidden` flips and every other field stays as it was, so a consistent tinted image stays consistent. |
| Models.ToggleHiddenTwice | SAM2-Demo/Views/AnnotationListView.swift:29 | Toggling twice restores the layer. |
| Models.Rendered | SAM2-Demo/Common/Models.swift:131-134 | A layer draws its tinted image: its image in its tint colour, or the plain image when there is no tinted image. |
| Models.RenderedAfterChanges | SAM2-Demo/Common/Models.swift:102-134 | After a re-tint, a layer draws its image in the new colour. Hiding a layer does not change what it draws. |
| SAM2Core.TransformCoords | SAM2-Demo/Common/SAM2.swift:168-181 | The output has the input's length and order. With `normalize`, entry i times the size is input i times 1024. Without it, entry i is input i scaled by 1024. |
| SAM2Core.TransformIsScaledFromSize | SAM2-Demo/Common/SAM2.swift:176-180 | The normalised transform is `toSize(fromSize(p, size), 1024x1024)`. |
| SAM2Core.Coordinates | SAM2-Demo/Common/SAM2.swift:111 | Entry i is the coordinates of point i. |
| SAM2Core.PromptArrays | SAM2-Demo/Common/SAM2.swift:114-121 | The point array has 2n entries: x of point i at 2i and y at 2i+1. The label array has n entries, with label i the category code of point i. |
| SAM2Core.InterleavedUnique | SAM2-Demo/Common/SAM2.swift:114-119 | Filling entries 2i and 2i+1 for every i determines the whole flat point array. |
| SAM2Core.ScanBounds | SAM2-Demo/Common/SAM2.swift:145-151 | The scan's minimum is at most 9999 and is 9999 or a logit. The maximum is at least -9999 and is -9999 or a logit. Every logit lies between them. |
| SAM2Core.ScanFindsExtremes | SAM2-Demo/Common/SAM2.swift:145-151 | For a non-empty plane strictly inside the sentinels, the minimum and maximum are logits of the plane. |
| SAM2Core.SentinelMasksLargeLogits | SAM2-Demo/Common/SAM2.swift:145-146 | A plane holding only 10000 is reported with minimum 9999, not 10000. |
| SAM2Core.LogitRange | SAM2-Demo/Common/SAM2.swift:145-151 | The loop yields min(9999, every logit) and max(-9999, every logit), and every logit lies between them. |
| SAM2Core.Threshold | SAM2-Demo/Common/SAM2.swift:152 | The quotient is finite exactly when max != min, and then it is where logit 0 lies on the line from min to max. It is NaN exactly when both are 0, and otherwise an infinity. |
| SAM2Core.ThresholdInUnitInterval | SAM2-Demo/Common/SAM2.swift:152 | When min <= 0 <= max and min < max, the threshold lies in [0, 1]. |
| SAM2Core.ConstantPlaneHasNoThreshold | SAM2-Demo/Common/SAM2.swift:145-152 | For a plane of equal logits inside the sentinels, min == max and no finite threshold exists, since nothing guards the division. |
| SAM2Core.SAM2.constructor | SAM2-Demo/Common/SAM2.swift:32-36 | A new engine has no models, no encodings and `initialized == nil`. |
| SAM2Core.SAM2.FinishLoading | SAM2-Demo/Common/SAM2.swift:38-64 | On success, `initialized` is true and the three handles are stored. On failure, `initialized` is false and no handle is stored. |
| SAM2Core.SAM2.EnsureModelsAreLoaded | SAM2-Demo/Common/SAM2.swift:68-81 | The result is Waiting while `initialized` is nil, and Loaded exactly when all three models are present. Every failure is `modelNotLoaded`. |
| SAM2Core.SAM2.GetImageEncoding | SAM2-Demo/Common/SAM2.swift:87-104 | With no encoder it throws `modelNotLoaded` and keeps the old encodings. Otherwise a successful prediction is stored, and a failed one is rethrown with the encodings kept. |
| SAM2Core.SAM2.GetPromptEncoding | SAM2-Demo/Common/SAM2.swift:106-125 | With no encoder it throws `modelNotLoaded` and keeps the old encodings. Otherwise a successful `PromptEncodingOf` outcome is stored, and a failed one is rethrown with the encodings kept. |
| SAM2Core.SAM2.GetMask | SAM2-Demo/Common/SAM2.swift:127-166 | With no decoder it throws. With a missing encoding it returns nil without decoding. The result is `MaskOf` of the decoder and the stored encodings, and `thresholdedMask` becomes `GrayscaleMaskOf` of them. A failed resize therefore still stores the greyscale mask. Every earlier failure leaves `thresholdedMask` alone. |
| SAM2Core.PromptEncodingOf | SAM2-Demo/Common/SAM2.swift:106-125 | Without an encoder the outcome is `modelNotLoaded`. Otherwise it is the encoder's prediction on the interleaved model-space coordinates and the category codes. |
| SAM2Core.MaskOf | SAM2-Demo/Common/SAM2.swift:127-166 | Without a decoder the outcome is `modelNotLoaded`. With a missing encoding it is nil. Otherwise plane [0][2] is rendered over its scanned range and resized with `Threshold` of that range. A prediction or resize error becomes the outcome, and a failed rendering gives nil. |
| SAM2Core.GrayscaleMaskOf | SAM2-Demo/Common/SAM2.swift:127-157 | The stored mask changes only to a greyscale rendering. It stays as it was without a decoder or without both encodings. |
| SAM2Pixels.MakeBlackPixelsTransparent | SAM2-Demo/Common/SAM2.swift:199-247 | The buffer becomes the original with each black pixel's alpha byte cleared. |
| SAM2Pixels.BlackToTransparent | SAM2-Demo/Common/SAM2.swift:232-244 | The buffer keeps its length. Per pixel, `TransparentPixel` proves that this is the loop's effect. |
| SAM2Pixels.TransparentPixel | SAM2-Demo/Common/SAM2.swift:232-244 | For pixel (x, y) at offset y*bytesPerRow + 4x, the alpha byte becomes 0 exactly when R, G and B are all 0, and is otherwise unchanged. R, G and B are always unchanged. |
| SAM2Pixels.PixelLayout | SAM2-Demo/Common/SAM2.swift:234-241 | Of a pixel's four bytes, only the fourth is an alpha byte, and the pixel lies in row y at column byte 4x. |
| ImageView.BoxPoints | SAM2-Demo/Views/ImageView.swift:28 | The flattened box points number twice the boxes. |
| ImageView.BoxPointsAt | SAM2-Demo/Views/ImageView.swift:28 | Box i supplies entry 2i (its origin) and entry 2i+1 (its end). |
| ImageView.PointSequence | SAM2-Demo/Views/ImageView.swift:27-29 | The prompt has 2·boxes + points entries and ends with the tapped points, unchanged and in order. |
| ImageView.PointSequenceLayout | SAM2-Demo/Views/ImageView.swift:27-29 | The prompt has 2·boxes + points entries. Each box's start and end come first, as Box Origin and Box End in box order, followed by the tapped points in order. |
| ImageView.ForwardPasses | SAM2-Demo/Views/ImageView.swift:44-53 | An edit starts at most two passes. It starts none exactly when each list kept its count or ended empty. |
| ImageView.ClearingStartsNoPass | SAM2-Demo/Views/ImageView.swift:44-53 | Emptying both lists never starts a pass. |
| ImageView.UntitledTitle | SAM2-Demo/Views/ImageView.swift:127-128 | The title is "Untitled " followed by the decimal digits of n + 1 without a leading zero, where n is the number of committed layers. |
| ImageView.NewSegmentation | SAM2-Demo/Views/ImageView.swift:126-129 | The new layer holds the mask and is titled "Untitled n+1". It is shown, has no first appearance, and has the default tint with a consistent tinted image. |
| ImageView.SizeOrZero | SAM2-Demo/Views/ImageView.swift:125 | `originalSize ?? .zero`: the known size, or the zero size. |
| ImageView.TapAndCornerScaling | SAM2-Demo/Views/ImageView.swift:93-124 | A box corner reaches the model divided by the view size once. A tapped point, stored already normalised, reaches it divided twice. |
| ImageView.ImageViewState.constructor | SAM2-Demo/Views/ImageView.swift:10-25 | The bound tool, category, points, boxes, current box, layers, current segmentation and sizes are the parent's values as given. Only the view's own state starts afresh: no error and the animation point at zero. |
| ImageView.ImageViewState.DragChanged | SAM2-Demo/Views/ImageView.swift:89-97 | Without the box tool nothing changes. The first event opens a box from the drag start to the pointer. Later events replace only the end corner. |
| ImageView.ImageViewState.DragEnded | SAM2-Demo/Views/ImageView.swift:98-106 | With the box tool and an open box, the box is appended, the animation point becomes its midpoint, the box is closed and one pass starts. Otherwise nothing changes. |
| ImageView.ImageViewState.HandleTap | SAM2-Demo/Views/ImageView.swift:109-114 | With the point tool, exactly one point at the normalised tap location is appended in the selected category, the animation moves there and one pass starts. Any other tool changes nothing. |
| ImageView.ImageViewState.PlacePoint | SAM2-Demo/Views/ImageView.swift:116-119 | Appends exactly one point at `location.fromSize(imageSize)` with the selected category. |
| ImageView.ImageViewState.PerformForwardPass | SAM2-Demo/Views/ImageView.swift:121-136 | The engine encodes `pointSequence` at the view size. A failed encoding is recorded as the error and changes nothing else. After a successful one, the encoding is stored and the engine's mask becomes `GrayscaleMaskOf` of it. The outcome of `MaskOf` at `originalSize ?? .zero` then decides the result. An error is recorded. Nil keeps the current segmentation. A mask becomes the current segmentation, titled "Untitled n+1" after the n committed layers. |
| ContentView.RemoveAllWithId | SAM2-Demo/ContentView.swift:81 | The result keeps exactly the points whose id differs from the erased one, and is no longer than the input. |
| ContentView.RemoveAllDistributes | SAM2-Demo/ContentView.swift:81 | Erasing from a concatenation erases from each part, so the kept points keep their order. |
| ContentView.RemoveAbsentId | SAM2-Demo/ContentView.swift:81 | Erasing an id that no point carries changes nothing. |
| ContentView.ContentViewState.constructor | SAM2-Demo/ContentView.swift:47-64 | Nothing is selected, loaded or imported, and there are no points. |
| ContentView.ContentViewState.OnAppear | SAM2-Demo/ContentView.swift:172-179 | Selector and Foreground are selected only where no tool or category was selected. |
| ContentView.ContentViewState.PlacePoint | SAM2-Demo/ContentView.swift:237-240 | Appends exactly one point at the raw tap location with the selected category. |
| ContentView.ContentViewState.TapImage | SAM2-Demo/ContentView.swift:95-114 | With the point tool a tap appends one point. With any other tool the points are unchanged. |
| ContentView.ContentViewState.TapPoint | SAM2-Demo/ContentView.swift:79-83 | With the eraser, every point with the tapped id is removed and the rest stay in order. Any other tool changes nothing. |
| ContentView.ContentViewState.PhotosLoaded | SAM2-Demo/ContentView.swift:183-194 | A loaded photo replaces the file image and clears the points. A failed load changes nothing. |
| ContentView.ContentViewState.FileImported | SAM2-Demo/ContentView.swift:197-210 | A chosen file clears the Photos selection and the points, is remembered and is loaded. A failed import only records the error. |
| ContentView.ContentViewState.LoadImage | SAM2-Demo/ContentView.swift:214-235 | Without access nothing changes. A decoded file is shown, a read error is recorded, and undecodable data changes nothing. |
| ContentView.LoadedImage | SAM2-Demo/ContentView.swift:222-227 | The shown image changes only to a successfully read and decoded image, and always does when there is one. |
| ContentView.LoadError | SAM2-Demo/ContentView.swift:215-234 | The recorded error changes only to a read error after access was granted, and always does then. |
| ContentView.LoadingShowsOrFails | SAM2-Demo/ContentView.swift:214-235 | Loading a file never both shows an image and records an error. |
| SubToolbar.SubToolbarState.constructor | SAM2-Demo/Views/SubtoolbarView.swift:11-13 | The bar is bound to the given points, boxes and layers. |
| SubToolbar.SubToolbarState.IsShown | SAM2-Demo/Views/SubtoolbarView.swift:16 | The bar is drawn while there is a point or a box. `ShownExactlyWhenResetEnabled` relates this to Reset. |
| SubToolbar.SubToolbarState.ResetDisabled | SAM2-Demo/Views/SubtoolbarView.swift:26 | Reset is disabled when both the point list and the box list are empty. |
| SubToolbar.SubToolbarState.ShownExactlyWhenResetEnabled | SAM2-Demo/Views/SubtoolbarView.swift:16-26 | The bar is shown exactly when Reset is enabled: when there is at least one point or one box. |
| SubToolbar.SubToolbarState.ResetAll | SAM2-Demo/Views/SubtoolbarView.swift:33-37 | Points, boxes and layers become empty whatever they held, so a second reset changes nothing. The bar hides, Reset is disabled and no pass starts. |
| MaskEditor.FirstIndexOf | SAM2-Demo/Views/MaskEditor.swift:42 | The result is the first layer with the id, or the layer count when no layer has it. |
| MaskEditor.Retinted | SAM2-Demo/Views/MaskEditor.swift:40-46 | The layer list keeps its length. `RetintedEffect`, `RetintIgnoresUnknown` and `RetintOneMore` state what the re-tint does. |
| MaskEditor.RetintedEffect | SAM2-Demo/Views/MaskEditor.swift:40-46 | Length and ids are kept, unselected layers are unchanged, and the first layer of each selected id gets the new colour. |
| MaskEditor.RetintIgnoresUnknown | SAM2-Demo/Views/MaskEditor.swift:42 | A selected id that matches no layer changes nothing. |
| MaskEditor.FirstIndexOfRetinted | SAM2-Demo/Views/MaskEditor.swift:42-43 | Re-tinting keeps every id, so the first index of any id is kept. |
| MaskEditor.RetintOneMore | SAM2-Demo/Views/MaskEditor.swift:41-45 | Handling one more id re-tints only that id's first layer, if it has one. |
| MaskEditor.MaskEditorState.constructor | SAM2-Demo/Views/MaskEditor.swift:13-17 | The picker starts at the default tint over the given layers and selection. |
| MaskEditor.MaskEditorState.UpdateSelectedSegmentationsColor | SAM2-Demo/Views/MaskEditor.swift:40-46 | Whatever order the set is visited in, the layers end as the originals with each selected id's first layer re-tinted. |
| MaskEditor.MaskEditorState.PickColor | SAM2-Demo/Views/MaskEditor.swift:23-26 | The picked colour is stored. When it differs from the previous one, the selected layers are re-tinted with it. |
| AnnotationList.EyeIconFlips | SAM2-Demo/Views/AnnotationListView.swift:28-29 | The icon is "eye.slash.fill" exactly when the layer is hidden. Each press changes it, and two presses restore it. |
| AnnotationList.EyeIconName | SAM2-Demo/Views/AnnotationListView.swift:28 | The icon is "eye.slash.fill" exactly when the layer is hidden, and "eye.fill" exactly when it is shown. |
| AnnotationList.AnnotationRow.constructor | SAM2-Demo/Views/AnnotationListView.swift:12 | The row is bound to its layer. |
| AnnotationList.AnnotationRow.PressEye | SAM2-Demo/Views/AnnotationListView.swift:28-30 | `isHidden` flips, while title, tint, image and tinted image stay as they were. |
| ColorExtension.SquaredDistance | SAM2-Demo/Common/Color+Extension.swift:31-40 | The distance is never negative, and is 0 between equal colours. |
| ColorExtension.DistanceSymmetric | SAM2-Demo/Common/Color+Extension.swift:31-40 | The distance does not depend on argument order. |
| ColorExtension.MinDistance | SAM2-Demo/Common/Color+Extension.swift:49 | The score is never negative, and is 0 when no colour is in use. |
| ColorExtension.MinDistanceIsMinimum | SAM2-Demo/Common/Color+Extension.swift:49 | Over colours in use, the score is the distance to one of them and is at most the distance to each. |
| ColorExtension.UsedColorScoresZero | SAM2-Demo/Common/Color+Extension.swift:49 | A colour already in use scores 0. |
| ColorExtension.FurthestColor | SAM2-Demo/Common/Color+Extension.swift:44-57 | If no candidate scores above 0, the result is the fallback. Otherwise it is a candidate with a positive, maximal score that beats every earlier candidate strictly, so the first one wins ties. |
| MainCommand.SplitOn | sam2-cli/MainCommand.swift:88 | The pieces are non-empty and contain no separator. `SplitOnSeparator` proves where they break: exactly at the separators, giving the maximal separator-free runs. |
| MainCommand.ParsePointArgument | sam2-cli/MainCommand.swift:87-97 | A parsed point comes from exactly two pieces. Its x is the number the first piece reads as, and its y the number the second reads as. |
| MainCommand.SplitOnSeparator | sam2-cli/MainCommand.swift:88 | The pieces break exactly at the separators: splitting `a + sep + b` gives the pieces of `a`, then those of `b`. With `SplitLastPiece`, this makes the result the maximal non-empty separator-free runs, in order. |
| MainCommand.SplitAtSeparator | sam2-cli/MainCommand.swift:88 | For any index i holding the separator, the pieces of the text are the pieces before i followed by the pieces after i. |
| MainCommand.SplitKeepsText | sam2-cli/MainCommand.swift:88 | Joining the pieces gives the argument with its separators deleted. |
| MainCommand.SplitPair | sam2-cli/MainCommand.swift:88 | `a,b` splits into exactly [a, b] when a and b are non-empty and comma-free. |
| MainCommand.SplitExtraCommas | sam2-cli/MainCommand.swift:88 | Leading, doubled and trailing commas produce no empty pieces. |
| MainCommand.ParseTwoPieces | sam2-cli/MainCommand.swift:90-96 | An argument that splits into two numbers parses to the point of those two numbers. |
| MainCommand.PointArgumentRoundTrip | sam2-cli/MainCommand.swift:87-97 | Printing two whole numbers as `x,y` and parsing the text gives the point (x, y). |
| MainCommand.ExtraCommasIgnored | sam2-cli/MainCommand.swift:88-96 | `,x,,y,` parses like `x,y`. |
| MainCommand.OneComponentRejected | sam2-cli/MainCommand.swift:90 | A comma-free argument such as "1" is rejected. |
| MainCommand.ThreeComponentsRejected | sam2-cli/MainCommand.swift:90 | Three components such as "1,2,3" are rejected. |
| MainCommand.NonNumericRejected | sam2-cli/MainCommand.swift:91-94 | Two components where one is not a number, such as "a,2", are rejected. |
| Text.ParseDoubleNatToString | sam2-cli/MainCommand.swift:91-92 | `Double(_:)` reads back a printed whole number. |
| Text.ParseDoubleRejectsComma | sam2-cli/MainCommand.swift:91-92 | `Double(_:)` rejects any text containing a comma. |
| Text.ParseDouble | sam2-cli/MainCommand.swift:91-92 | `Double(_:)` on plain decimals. `ParseDoubleNatToString` proves that it reads back printed whole numbers, and `ParseDoubleRejectsComma` that it rejects commas. |
| Text.NatToString | SAM2-Demo/Views/ImageView.swift:128 | The decimal digits of n read back as n, with no leading zero, one digit below 10 and at most two below 100. |
| Text.ZeroPad2 | SAM2-Demo/Views/VideoView.swift:76 | `%02d` gives two digits for 0..99. For larger values it gives their digits without a leading zero. A negative value is '-' followed by the digits of its magnitude, without a leading zero. |
| VideoView.TruncateToInt | SAM2-Demo/Views/VideoView.swift:73 | `Int(_:)` rounds toward zero. |
| VideoView.SwiftRem | SAM2-Demo/Views/VideoView.swift:74-75 | Swift's `%` takes the sign of the dividend and stays below the divisor in magnitude. |
| VideoView.SwiftDivRem | SAM2-Demo/Views/VideoView.swift:73-75 | Swift's `/` and `%` satisfy q·b + r == a. |
| VideoView.ClockOf | SAM2-Demo/Views/VideoView.swift:72-75 | The three fields `formatTime` prints. `ClockAddsUp`, `ClockOfNonNegative` and `ClockOfNegative` state their relation to the duration. |
| VideoView.FormatTime | SAM2-Demo/Views/VideoView.swift:71-77 | Each field is at least two characters wide, so the text has at least 8 characters. `FormatTimeRoundTrip` reads it back. |
| VideoView.ClockOfNonNegative | SAM2-Demo/Views/VideoView.swift:73-75 | For s >= 0, hours·3600 + minutes·60 + seconds == s, and minutes and seconds lie in 0..59. |
| VideoView.ClockOfNegative | SAM2-Demo/Views/VideoView.swift:73-75 | A negative duration gives the fields of its absolute value, negated. |
| VideoView.ClockAddsUp | SAM2-Demo/Views/VideoView.swift:71-77 | For any duration, the fields add up to the truncated total seconds. |
| VideoView.FormatTimeRoundTrip | SAM2-Demo/Views/VideoView.swift:71-77 | For 0 <= s < 360000, the text has 8 characters and reading its three colon-separated fields back gives the truncated seconds. |
| VideoView.LongDurationsWiden | SAM2-Demo/Views/VideoView.swift:76 | From 100 hours on, the text is longer than 8 characters. |
| VideoView.ShortNegativeDuration | SAM2-Demo/Views/VideoView.swift:73-76 | A duration in (-60, -1] is formatted as "00:00:-" followed by the seconds. |

## Left out

- ColorExtension.SquaredDistance: states that the distance is non-negative and zero between equal colours, but not the converse (zero distance implies equal colours). The distance is the squared Euclidean distance, since `sqrt` is monotone and every comparison `furthestColor` makes comes out the same. Converting `Color` to device RGB through `NSColor` is not part of this model: a colour is its RGB triple.
- ColorExtension.FurthestColor: `randomCandidateColor` and `defaultColor` are not part of this model, so the fallback colour is a parameter.
- SAM2Core.PromptArrays: the points are written as `Float` in the source. The model keeps exact reals and does not round to 32 bits. The same goes for the `Float(threshold)` passed to the resize in `SAM2Core.SAM2.GetMask`.
- SAM2Core.SAM2.GetMask: the decoder's `low_res_masks` array is a sequence of planes. Plane [0][2] is always taken and no argmax over the three candidate masks is made, as in the source. `cgImage(min:max:)`, `resizeCGImage` and the threshold filter are functions in a `Renderer` value, and their pixel work is not modelled. The `Threshold` type follows IEEE division only as far as the sign of an infinity and NaN.
- SAM2Core.SAM2.GetImageEncoding: the pixel-buffer and URL overloads are one method over an `EncoderInput`. Building the encoder input from a URL can throw, and this is folded into the prediction function's error.
- SAM2Core.SAM2.FinishLoading: loading the three CoreML models, the detached task and the initialisation timing are I/O. Their outcome is the method's parameter.
- SAM2Core.SAM2.EnsureModelsAreLoaded: the Combine sink and the continuation are not modelled. The function gives what the continuation would resume with for the current `initialized`, and `Waiting` while it is nil.
- SAM2Pixels.MakeBlackPixelsTransparent: only the nested loop over the byte buffer is modelled. Getting the data provider, copying into a `CGContext` and building the output `CGImage` are CoreGraphics work, and so are their `nil` returns. The buffer has four bytes per pixel and rows of `bytesPerRow >= 4·width` bytes.
- ImageView.ImageViewState.PerformForwardPass: the `Task` and the hop to the main queue are not modelled. The pass runs to completion as one step, and the new layer's identifier is a parameter. The forward-pass trigger is `ImageView.ForwardPasses`, stated on the point and box lists before and after an edit rather than as SwiftUI `onChange` callbacks.
- ImageView.ImageViewState.HandleTap: view pixels divided by a zero-size view are not modelled, because `fromSize` is a real division. The tap requires a non-zero view size, and the same holds for the size `transformCoords` divides by.
- ImageView.TapAndCornerScaling: points are divided by the view size twice and box corners once. The model keeps this as written, and the lemma states the asymmetry.
- Models.SamBox.Points: the source gives each derived point a fresh `UUID()` and `Date()` at every evaluation. The model reuses the box's id and date. Ids and dates are parameters everywhere, because fresh identifiers and the clock are outside the model.
- Models.Rendered: `CIContext.createCGImage` is not modelled. A rendered layer is the image term it would draw.
- ContentView.ContentViewState: `ContentView.swift` declares its own `SAMCategory`, `SAMPoint` and `SAMTool` types without category codes or dates. The model uses the `Models` types for them.
- ContentView.ContentViewState.FileImported: the security-scoped access and the file read are parameters (`accessGranted`, `read`). The deferred `stopAccessingSecurityScopedResource` and the logging are left out.
- ContentView.ContentViewState.PhotosLoaded: `loadTransferable` is a parameter: the loaded image, or `None` on failure.
- MaskEditor.MaskEditorState.PickColor: SwiftUI's `onChange` fires only when the picked value differs from the previous one, so an unchanged colour updates nothing.
- VideoView.FormatTime: `Int(_:)` traps on NaN, on infinities and on values outside the 64-bit range. The model truncates any real and does not model the trap. The `%02d` formatting is the decimal digits with a minimum width of 2.
- Text.ParseDouble: Swift's `Double(_:)` also accepts exponents, hexadecimal floats, "inf" and "nan". The model accepts an optional sign, digits and an optional fractional part. It agrees with Swift on every text that contains a comma, and on printed whole numbers.
- MainCommand.SplitOn: Swift's `split(separator:)` and `Double(_:)` compare grapheme clusters (`Character`). The model compares code points, so a comma followed by a combining mark is a separator here but not in Swift.
- ContentView.ContentViewState.LoadImage: the source assigns `displayImage` inside `DispatchQueue.main.async`. The model assigns it at once, as if the main-queue block had already run.
- The older root copies `SAM2-Demo/SAM2.swift` and `SAM2-Demo/Models.swift` are not part of this model. Their label codes differ from `SAM2-Demo/Common/Models.swift`, which this model follows.
- Not part of this model: SwiftUI view bodies, cursors, zooming, the video player and its slider, text prompts, the layer list, PNG export, `DirectoryDocument`, the CoreImage and `NSImage` extensions, and the CLI's `run`. These are UI and I/O with no decision logic of the kinds above.
