/** The point-annotation state of SAM2-Demo/ContentView.swift: tool and
    category selection, tool-gated taps, the eraser, and the imports that
    clear the points. */
module ContentView {
  import opened Wrappers
  import opened Geometry
  import opened Models

  /** Every point of `points` except those with identifier `id`, in order
      (`removeAll { $0.id == id }`). */
  function RemoveAllWithId(points: seq<SamPoint>, id: Uuid): (r: seq<SamPoint>)
    ensures |r| <= |points|
    ensures forall p :: p in r ==> p in points && p.id != id
    ensures forall p :: p in points && p.id != id ==> p in r
  {
    if points == [] then []
    else if points[0].id == id then RemoveAllWithId(points[1..], id)
    else [points[0]] + RemoveAllWithId(points[1..], id)
  }

  /** The points kept by the eraser keep their relative order: removing
      the erased ones from an order-preserving merge gives the same list as
      filtering each part. */
  lemma {:induction false} RemoveAllDistributes(a: seq<SamPoint>, b: seq<SamPoint>, id: Uuid)
    ensures RemoveAllWithId(a + b, id) == RemoveAllWithId(a, id) + RemoveAllWithId(b, id)
  {
    if a == [] {
      assert a + b == b;
    } else {
      assert (a + b)[0] == a[0];
      assert (a + b)[1..] == a[1..] + b;
      RemoveAllDistributes(a[1..], b, id);
    }
  }

  /** Erasing an identifier no point carries changes nothing. */
  lemma {:induction false} RemoveAbsentId(points: seq<SamPoint>, id: Uuid)
    requires forall i :: 0 <= i < |points| ==> points[i].id != id
    ensures RemoveAllWithId(points, id) == points
  {
    if points != [] {
      RemoveAbsentId(points[1..], id);
      assert [points[0]] + points[1..] == points;
    }
  }

  /** An image picked in Photos or a file chosen in the importer. */
  datatype PhotosItem = PhotosItem(handle: nat)
  datatype ImportError = ImportError(reason: string)

  const Tools: seq<Tool> := [Selector, PointTool, BoundingBoxTool, Eraser]
  const Categories: seq<Category> := [ForegroundCategory, BackgroundCategory]

  class ContentViewState {
    var selectedTool: Option<Tool>
    var selectedCategory: Option<Category>
    var selectedPoints: seq<SamPoint>
    var displayImage: Option<Image>
    var photosImage: Option<Image>
    var selectedItem: Option<PhotosItem>
    var imageURL: Option<string>
    var importError: Option<ImportError>

    constructor ()
      ensures selectedTool.None? && selectedCategory.None? && selectedPoints == []
      ensures displayImage.None? && photosImage.None? && selectedItem.None? && imageURL.None? && importError.None?
    {
      selectedTool := None;
      selectedCategory := None;
      selectedPoints := [];
      displayImage := None;
      photosImage := None;
      selectedItem := None;
      imageURL := None;
      importError := None;
    }

    /** `onAppear`: the first tool and the first category, only where none
      is selected yet. */
    method OnAppear()
      modifies this`selectedTool, this`selectedCategory
      ensures selectedTool == if old(selectedTool).None? then Some(Selector) else old(selectedTool)
      ensures selectedCategory == if old(selectedCategory).None? then Some(ForegroundCategory) else old(selectedCategory)
    {
      if selectedTool.None? {
        selectedTool := Some(Tools[0]);
      }
      if selectedCategory.None? {
        selectedCategory := Some(Categories[0]);
      }
    }

    /** `placePoint`: one point at the raw tap location. */
    method PlacePoint(coordinates: Point2, newId: Uuid, now: Date)
      requires selectedCategory.Some?
      modifies this`selectedPoints
      ensures selectedPoints == old(selectedPoints) + [SamPoint(newId, coordinates, selectedCategory.value, now)]
    {
      var samPoint := SamPoint(newId, coordinates, selectedCategory.value, now);
      selectedPoints := selectedPoints + [samPoint];
    }

    /** A tap on the shown image places a point only with the point tool. */
    method TapImage(location: Point2, newId: Uuid, now: Date)
      requires displayImage.Some? || photosImage.Some?
      requires selectedTool == Some(PointTool) ==> selectedCategory.Some?
      modifies this`selectedPoints
      ensures selectedTool == Some(PointTool) ==>
        selectedPoints == old(selectedPoints) + [SamPoint(newId, location, selectedCategory.value, now)]
      ensures selectedTool != Some(PointTool) ==> selectedPoints == old(selectedPoints)
    {
      if selectedTool == Some(PointTool) {
        PlacePoint(location, newId, now);
      }
    }

    /** A tap on a drawn point erases every point with its identifier, but
      only with the eraser tool. */
    method TapPoint(point: SamPoint)
      modifies this`selectedPoints
      ensures selectedTool == Some(Eraser) ==> selectedPoints == RemoveAllWithId(old(selectedPoints), point.id)
      ensures selectedTool != Some(Eraser) ==> selectedPoints == old(selectedPoints)
    {
      if selectedTool == Some(Eraser) {
        selectedPoints := RemoveAllWithId(selectedPoints, point.id);
      }
    }

    /** The Photos picker finished loading: a loaded image replaces the
      displayed one and clears the points; a failure changes nothing. */
    method PhotosLoaded(loaded: Option<Image>)
      modifies this`displayImage, this`selectedPoints, this`photosImage
      ensures loaded.Some? ==> displayImage.None? && selectedPoints == [] && photosImage == loaded
      ensures loaded.None? ==>
        displayImage == old(displayImage) && selectedPoints == old(selectedPoints) && photosImage == old(photosImage)
    {
      if loaded.Some? {
        displayImage := None;
        selectedPoints := [];
        photosImage := loaded;
      }
    }

    /** The file importer returned: on success the Photos selection and the
      points are cleared, the file is remembered and loaded; on failure the
      error is kept. `accessGranted` and `read` stand for the
      security-scoped access and the file read that loading performs. */
    method FileImported(result: Result<string, ImportError>, accessGranted: bool, read: Result<Option<Image>, ImportError>)
      modifies this`photosImage, this`selectedItem, this`selectedPoints, this`imageURL, this`importError, this`displayImage
      ensures result.Ok? ==>
        && photosImage.None? && selectedItem.None? && selectedPoints == []
        && imageURL == Some(result.value)
        && displayImage == LoadedImage(old(displayImage), accessGranted, read)
        && importError == LoadError(old(importError), accessGranted, read)
      ensures result.Err? ==>
        && importError == Some(result.error)
        && photosImage == old(photosImage) && selectedItem == old(selectedItem)
        && selectedPoints == old(selectedPoints) && imageURL == old(imageURL)
        && displayImage == old(displayImage)
    {
      match result
      case Ok(file) =>
        photosImage := None;
        selectedItem := None;
        selectedPoints := [];
        imageURL := Some(file);
        LoadImage(accessGranted, read);
      case Err(e) =>
        importError := Some(e);
    }

    /** `loadImage(from:)`: without access nothing happens; a file that
      decodes is shown; a read failure is kept as the error. */
    method LoadImage(accessGranted: bool, read: Result<Option<Image>, ImportError>)
      modifies this`displayImage, this`importError
      ensures displayImage == LoadedImage(old(displayImage), accessGranted, read)
      ensures importError == LoadError(old(importError), accessGranted, read)
    {
      if !accessGranted {
        return;
      }
      match read
      case Ok(Some(image)) =>
        displayImage := Some(image);
      case Ok(None) =>
      case Err(e) =>
        importError := Some(e);
    }
  }

  /** The image shown after loading a file. */
  function LoadedImage(shown: Option<Image>, accessGranted: bool, read: Result<Option<Image>, ImportError>): (r: Option<Image>)
    ensures r != shown ==> accessGranted && read.Ok? && read.value.Some? && r == read.value
    ensures accessGranted && read.Ok? && read.value.Some? ==> r == read.value
  {
    if accessGranted && read.Ok? && read.value.Some? then read.value else shown
  }

  /** The error kept after loading a file. */
  function LoadError(kept: Option<ImportError>, accessGranted: bool, read: Result<Option<Image>, ImportError>): (r: Option<ImportError>)
    ensures r != kept ==> accessGranted && read.Err? && r == Some(read.error)
    ensures accessGranted && read.Err? ==> r == Some(read.error)
  {
    if accessGranted && read.Err? then Some(read.error) else kept
  }

  /** Loading never both shows a new image and records an error. */
  lemma LoadingShowsOrFails(shown: Option<Image>, kept: Option<ImportError>, accessGranted: bool, read: Result<Option<Image>, ImportError>)
    ensures LoadedImage(shown, accessGranted, read) == shown || LoadError(kept, accessGranted, read) == kept
  {
  }
}
