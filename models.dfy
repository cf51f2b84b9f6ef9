/** The annotation data types of SAM2-Demo/Common/Models.swift: category
    codes, the static categories, points, boxes, segmentation layers and the
    editing tools. */
module Models {
  import opened Wrappers
  import opened Geometry

  /** A `UUID()`: an identifier the caller supplies fresh. */
  datatype Uuid = Uuid(value: nat)

  /** A `Date()`: seconds on some clock the caller reads. */
  type Date = real

  /** `SAMCategoryType`, an `Int`-backed enumeration. */
  datatype CategoryType = Background | Foreground | BoxOrigin | BoxEnd {

    /** The label code the prompt encoder receives. */
    function RawValue(): (code: int)
      ensures 0 <= code <= 3
    {
      match this
      case Background => 0
      case Foreground => 1
      case BoxOrigin => 2
      case BoxEnd => 3
    }

    function Description(): string {
      match this
      case Foreground => "Foreground"
      case Background => "Background"
      case BoxOrigin => "Box Origin"
      case BoxEnd => "Box End"
    }
  }

  /** The failable `init?(rawValue:)` Swift synthesises for an `Int` enum. */
  function CategoryTypeFromRawValue(code: int): (r: Option<CategoryType>)
    ensures r.Some? <==> 0 <= code <= 3
    ensures r.Some? ==> r.value.RawValue() == code
  {
    if code == 0 then Some(Background)
    else if code == 1 then Some(Foreground)
    else if code == 2 then Some(BoxOrigin)
    else if code == 3 then Some(BoxEnd)
    else None
  }

  /** The label codes are pairwise distinct: decoding a code gives back the
      case it came from. */
  lemma RawValueRoundTrip(t: CategoryType)
    ensures CategoryTypeFromRawValue(t.RawValue()) == Some(t)
  {
  }

  /** The SwiftUI system colours a category is drawn in. */
  datatype SystemColor = Pink | Purple | White

  /** `SAMCategory`; Swift's `type` field is called `kind` here. */
  datatype Category = Category(kind: CategoryType, name: string, iconName: string, color: SystemColor) {
    function TypeDescription(): string {
      kind.Description()
    }
  }

  const ForegroundCategory: Category :=
    Category(Foreground, "Foreground", "square.on.square.dashed", Pink)
  const BackgroundCategory: Category :=
    Category(Background, "Background", "square.on.square.intersection.dashed", Purple)
  const BoxOriginCategory: Category := Category(BoxOrigin, "Box Origin", "", White)
  const BoxEndCategory: Category := Category(BoxEnd, "Box End", "", White)

  function StaticCategories(): seq<Category> {
    [ForegroundCategory, BackgroundCategory, BoxOriginCategory, BoxEndCategory]
  }

  /** Each static category carries the type of the same name, so its
      display name and its type description agree, and the four codes are
      the four distinct label codes. */
  lemma StaticCategoriesConsistent()
    ensures forall c :: c in StaticCategories() ==> c.TypeDescription() == c.name
    ensures ForegroundCategory.kind == Foreground && BackgroundCategory.kind == Background
    ensures BoxOriginCategory.kind == BoxOrigin && BoxEndCategory.kind == BoxEnd
    ensures forall i, j :: 0 <= i < j < 4 ==>
      StaticCategories()[i].kind.RawValue() != StaticCategories()[j].kind.RawValue()
  {
  }

  /** `SAMPoint`. */
  datatype SamPoint = SamPoint(id: Uuid, coordinates: Point2, category: Category, dateAdded: Date)

  /** `SAMBox`; its end corner is replaced while it is being dragged. */
  datatype SamBox = SamBox(id: Uuid, startPoint: Point2, endPoint: Point2, category: Category, dateAdded: Date) {

    /** The componentwise average of the two corners. */
    function Midpoint(): (m: Point2)
      ensures m.x - startPoint.x == endPoint.x - m.x
      ensures m.y - startPoint.y == endPoint.y - m.y
      ensures startPoint == endPoint ==> m == startPoint
    {
      Point2((startPoint.x + endPoint.x) / 2.0, (startPoint.y + endPoint.y) / 2.0)
    }

    /** The two prompt points a box stands for: its origin, then its end. */
    function Points(): (ps: seq<SamPoint>)
      ensures |ps| == 2
      ensures ps[0].coordinates == startPoint && ps[0].category == BoxOriginCategory
      ensures ps[1].coordinates == endPoint && ps[1].category == BoxEndCategory
      ensures ps[0].category.kind.RawValue() == 2 && ps[1].category.kind.RawValue() == 3
    {
      [SamPoint(id, startPoint, BoxOriginCategory, dateAdded),
       SamPoint(id, endPoint, BoxEndCategory, dateAdded)]
    }
  }

  /** A `CIImage` or `CGImage`, as a term: an image the renderer produced,
      or the monochrome filter applied to another image. */
  datatype Image = Bitmap(handle: nat) | Monochrome(source: Image, tint: Color)

  /** A colour as its device RGB components. */
  datatype Color = Color(red: real, green: real, blue: real)

  /** `Color(.sRGB, red: 30/255, green: 144/255, blue: 1)`. */
  const DefaultTint: Color := Color(30.0 / 255.0, 144.0 / 255.0, 1.0)

  /** `SAMSegmentation`: a committed mask layer. `tintedImage` is private in
      the source and always derived from `image` and `tintColor`. */
  datatype Segmentation = Segmentation(
    id: Uuid,
    image: Image,
    tintColor: Color,
    title: string,
    firstAppearance: Option<int>,
    isHidden: bool,
    tintedImage: Option<Image>)

  /** `updateTintedImage` has run since the last change of image or tint. */
  predicate TintConsistent(s: Segmentation) {
    s.tintedImage == Some(Monochrome(s.image, s.tintColor))
  }

  /** `SAMSegmentation.init`, with the source's default arguments. */
  function MakeSegmentation(
    id: Uuid,
    image: Image,
    tintColor: Color := DefaultTint,
    title: string := "",
    firstAppearance: Option<int> := None,
    isHidden: bool := false): (s: Segmentation)
    ensures TintConsistent(s)
    ensures s.id == id && s.image == image && s.tintColor == tintColor
    ensures s.title == title && s.firstAppearance == firstAppearance && s.isHidden == isHidden
  {
    Segmentation(id, image, tintColor, title, firstAppearance, isHidden, Some(Monochrome(image, tintColor)))
  }

  /** Assigning `tintColor`: its `didSet` recomputes the tinted image and
      nothing else. */
  function SetTintColor(s: Segmentation, c: Color): (r: Segmentation)
    ensures r.tintColor == c && TintConsistent(r)
    ensures r.(tintColor := s.tintColor, tintedImage := s.tintedImage) == s
  {
    s.(tintColor := c, tintedImage := Some(Monochrome(s.image, c)))
  }

  /** `isHidden.toggle()`. */
  function ToggleHidden(s: Segmentation): (r: Segmentation)
    ensures r.isHidden != s.isHidden
    ensures r.(isHidden := s.isHidden) == s
    ensures TintConsistent(s) ==> TintConsistent(r)
  {
    s.(isHidden := !s.isHidden)
  }

  /** Toggling visibility twice restores the layer. */
  lemma ToggleHiddenTwice(s: Segmentation)
    ensures ToggleHidden(ToggleHidden(s)) == s
  {
  }

  /** `cgImage`: what a layer draws, the tinted image when there is one. */
  function Rendered(s: Segmentation): (r: Image)
    ensures TintConsistent(s) ==> r == Monochrome(s.image, s.tintColor)
    ensures s.tintedImage.None? ==> r == s.image
  {
    if s.tintedImage.Some? then s.tintedImage.value else s.image
  }

  /** A re-tinted layer draws its image in the new colour, and hiding it
      does not change what it draws. */
  lemma RenderedAfterChanges(s: Segmentation, c: Color)
    requires TintConsistent(s)
    ensures Rendered(SetTintColor(s, c)) == Monochrome(s.image, c)
    ensures Rendered(ToggleHidden(s)) == Rendered(s)
  {
  }

  /** `SAMTool`: the four editing tools of the toolbar. */
  datatype Tool = Selector | PointTool | BoundingBoxTool | Eraser {
    function Name(): string {
      match this
      case Selector => "Selector"
      case PointTool => "Point"
      case BoundingBoxTool => "Bounding Box"
      case Eraser => "Eraser"
    }

    function IconName(): string {
      match this
      case Selector => "cursorarrow"
      case PointTool => "hand.point.up.left"
      case BoundingBoxTool => "rectangle.dashed"
      case Eraser => "eraser"
    }
  }
}
