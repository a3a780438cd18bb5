// The focal-length visualiser: a red 3:2 rectangle over a reference photo shows
// how much of the scene a lens of the chosen focal length sees, taking the
// photo's full width as the view at 10 mm; a click moves the rectangle, and a
// fixed-width preview shows the part of the photo under it, magnified.
//
// The field of view of a focal length is 2·atan(36 / (2·f)) in degrees; it is
// not computed here: each operation receives the field of view of the current
// focal length (`fov`) and of the widest one (`widestFov`) as numbers.
module FocalLength {
  import opened Js
  import opened Layout

  /** A position in CSS pixels, relative to the photo's top-left corner. */
  datatype Point = Point(x: real, y: real)

  /** A bounding client rectangle: where an element is on the page, and its size. */
  datatype Box = Box(left: real, top: real, width: real, height: real)

  /** The slider's range and the initial focal length, in millimetres. */
  const MIN_FOCAL_LENGTH: int := 10
  const MAX_FOCAL_LENGTH: int := 200
  const DEFAULT_FOCAL_LENGTH: int := 50

  /** The focal length whose view is the photo's full width. */
  const WIDEST_FOCAL_LENGTH: int := 10

  /** The preset buttons. */
  const FOCAL_PRESETS: seq<int> := [14, 24, 35, 50, 85, 135, 200]

  /** Width to height of the view rectangle. */
  const ASPECT_RATIO: real := 3.0 / 2.0

  /** Width of the magnified preview, in CSS pixels. */
  const PREVIEW_WIDTH: real := 300.0

  /** Every preset and the initial focal length lie on the slider, and the
      presets ascend. The last clause is a check on the constants only: the
      slider's lower end is the 10 mm that `calculateViewRect` takes as the
      photo's full width. */
  lemma FocalLengthsOnSlider()
    ensures forall p :: p in FOCAL_PRESETS ==> MIN_FOCAL_LENGTH <= p <= MAX_FOCAL_LENGTH
    ensures MIN_FOCAL_LENGTH <= DEFAULT_FOCAL_LENGTH <= MAX_FOCAL_LENGTH
    ensures WIDEST_FOCAL_LENGTH == MIN_FOCAL_LENGTH
    ensures forall i, j :: 0 <= i < j < |FOCAL_PRESETS| ==> FOCAL_PRESETS[i] < FOCAL_PRESETS[j]
  {
  }

  /** `calculateViewRect`: nothing until the photo has been measured; then a
      3:2 rectangle whose share of the photo's width is the share of the widest
      field of view that the current one covers. */
  function CalculateViewRect(imageWidth: real, fov: real, widestFov: real): (r: Size)
    requires 0.0 < widestFov
    ensures imageWidth == 0.0 ==> r == Size(0.0, 0.0)
    ensures imageWidth != 0.0 ==> r.width * widestFov == imageWidth * fov
    ensures r.width == ASPECT_RATIO * r.height
  {
    if imageWidth == 0.0 then Size(0.0, 0.0)
    else
      var scale := fov / widestFov;
      var width := imageWidth * scale;
      Size(width, width / ASPECT_RATIO)
  }

  /** At the widest field of view the rectangle spans the whole photo. */
  lemma FullWidthAtWidestFov(imageWidth: real, widestFov: real)
    requires 0.0 < widestFov
    ensures CalculateViewRect(imageWidth, widestFov, widestFov).width == imageWidth
  {
  }

  /** A narrower field of view never gives a wider rectangle, and a field of view
      no wider than the widest one gives a rectangle no wider than the photo (and
      no taller, when the photo is at most 3:2). */
  lemma ViewRectWithinImage(image: Size, fov: real, otherFov: real, widestFov: real)
    requires 0.0 < widestFov && 0.0 <= image.width
    requires 0.0 <= fov <= otherFov
    ensures CalculateViewRect(image.width, fov, widestFov).width <= CalculateViewRect(image.width, otherFov, widestFov).width
    ensures fov <= widestFov ==> 0.0 <= CalculateViewRect(image.width, fov, widestFov).width <= image.width
    ensures fov <= widestFov && 2.0 * image.width <= 3.0 * image.height ==>
      CalculateViewRect(image.width, fov, widestFov).height <= image.height
  {
    var r := CalculateViewRect(image.width, fov, widestFov);
    var o := CalculateViewRect(image.width, otherFov, widestFov);
    if image.width != 0.0 {
      MulMonotone(image.width, fov, otherFov);
      CancelPositive(r.width, o.width, widestFov);
      if fov <= widestFov {
        MulMonotone(image.width, 0.0, fov);
        CancelPositive(0.0, r.width, widestFov);
        MulMonotone(image.width, fov, widestFov);
        CancelPositive(r.width, image.width, widestFov);
      }
    }
  }

  /** Multiplying by a non-negative number keeps order. */
  lemma MulMonotone(a: real, b: real, c: real)
    requires 0.0 <= a && b <= c
    ensures a * b <= a * c
  {
  }

  /** A positive common factor can be cancelled from an inequality. */
  lemma CancelPositive(x: real, y: real, w: real)
    requires 0.0 < w && x * w <= y * w
    ensures x <= y
  {
  }

  /** `Math.max(0, Math.min(v, max))`: `v` moved into [0, max]; 0 when that
      range is empty. */
  function Clamp(v: real, max: real): (r: real)
    ensures 0.0 <= r
    ensures 0.0 <= max ==> r <= max
    ensures max < 0.0 ==> r == 0.0
    ensures 0.0 <= v <= max ==> r == v
    ensures v < 0.0 ==> r == 0.0
    ensures 0.0 <= max < v ==> r == max
  {
    Max(0.0, Min(v, max))
  }

  /** The position that centres `rect` on `image`. */
  function Centred(image: Size, rect: Size): (p: Point)
    ensures p.x + rect.width / 2.0 == image.width / 2.0
    ensures p.y + rect.height / 2.0 == image.height / 2.0
  {
    Point((image.width - rect.width) / 2.0, (image.height - rect.height) / 2.0)
  }

  /** A centred rectangle has equal margins, so it lies inside an image it fits. */
  lemma CentredInside(image: Size, rect: Size)
    requires 0.0 <= rect.width <= image.width && 0.0 <= rect.height <= image.height
    ensures var p := Centred(image, rect);
      0.0 <= p.x && p.x + rect.width <= image.width && 0.0 <= p.y && p.y + rect.height <= image.height
  {
  }

  /** The style of the magnified preview. */
  datatype CropStyle =
    | NoStyle  // `{}`: the photo element does not exist yet
    | NonFinite  // a size is zero, so a division yields NaN or Infinity
    | Style(backgroundWidth: real, backgroundHeight: real,
            backgroundX: real, backgroundY: real, width: real, height: real)

  /** One axis of the preview: the photo has natural extent `n` and displayed
      extent `d`, the view rectangle starts at `offset` and spans `span` on
      screen, and the preview box is `box` long. The background's extent and
      offset are the displayed ones magnified by `box / span`: the natural size
      cancels out. */
  function ZoomAxis(n: real, d: real, span: real, offset: real, box: real): (r: (real, real))
    requires n != 0.0 && d != 0.0 && span != 0.0
    ensures r.0 == (box / span) * d
    ensures r.1 == -((box / span) * offset)
  {
    var scale := n / d;
    var crop := span * scale;
    var zoom := box / crop;
    assert scale * d == n;
    assert zoom * scale == box / span by {
      assert zoom * crop == box;
      assert (zoom * scale) * span == box;
    }
    (n * zoom, -(offset * scale * zoom))
  }

  /** Scaling by `h` and dividing by `h` again gives back the scale. */
  lemma ScaleBack(z: real, h: real)
    requires h != 0.0
    ensures (z * h) / h == z
  {
    assert (z * h) / h * h == z * h;
  }

  /** `getCropViewStyle`: the photo (`natural` is its intrinsic size) is drawn
      as the background of a 300 pixel wide box, scaled and shifted so that the
      box shows, magnified by 300 / rectangle width, what the view rectangle
      covers on screen. */
  function CropViewStyle(natural: Option<Size>, imageSize: Size, position: Point, viewRect: Size): (r: CropStyle)
    ensures natural.None? <==> r == NoStyle
    ensures natural.Some? ==>
      (r == NonFinite <==>
        (imageSize.width == 0.0 || imageSize.height == 0.0 || natural.value.width == 0.0 ||
         natural.value.height == 0.0 || viewRect.width == 0.0 || viewRect.height == 0.0))
    ensures r.Style? ==>
      var zoom := PREVIEW_WIDTH / viewRect.width;
      && r.width == PREVIEW_WIDTH
      && r.height == zoom * viewRect.height
      && r.backgroundWidth == zoom * imageSize.width
      && r.backgroundHeight == zoom * imageSize.height
      && r.backgroundX == -(zoom * position.x)
      && r.backgroundY == -(zoom * position.y)
  {
    match natural
    case None => NoStyle
    case Some(n) =>
      if imageSize.width == 0.0 || imageSize.height == 0.0 || n.width == 0.0 || n.height == 0.0
         || viewRect.width == 0.0 || viewRect.height == 0.0
      then NonFinite
      else
        var boxHeight := (PREVIEW_WIDTH / viewRect.width) * viewRect.height;
        var x := ZoomAxis(n.width, imageSize.width, viewRect.width, position.x, PREVIEW_WIDTH);
        var y := ZoomAxis(n.height, imageSize.height, viewRect.height, position.y, boxHeight);
        ScaleBack(PREVIEW_WIDTH / viewRect.width, viewRect.height);
        Style(x.0, y.0, x.1, y.1, PREVIEW_WIDTH, boxHeight)
  }

  /** For a rectangle the view computes, the preview box has the rectangle's
      3:2 shape, and its background shows exactly the part of the displayed
      photo the rectangle covers, from its left and top edges to its right and
      bottom ones. */
  lemma PreviewShowsViewRect(natural: Size, imageSize: Size, position: Point, fov: real, widestFov: real)
    requires 0.0 < widestFov && 0.0 < fov
    requires imageSize.width > 0.0 && imageSize.height != 0.0 && natural.width != 0.0 && natural.height != 0.0
    ensures var rect := CalculateViewRect(imageSize.width, fov, widestFov);
      var r := CropViewStyle(Some(natural), imageSize, position, rect);
      var zoom := PREVIEW_WIDTH / rect.width;
      && r.Style?
      && r.width == ASPECT_RATIO * r.height
      && -r.backgroundX == zoom * position.x
      && -r.backgroundX + r.width == zoom * (position.x + rect.width)
      && -r.backgroundY == zoom * position.y
      && -r.backgroundY + r.height == zoom * (position.y + rect.height)
  {
    var rect := CalculateViewRect(imageSize.width, fov, widestFov);
    assert rect.width * widestFov == imageSize.width * fov;
    assert rect.width > 0.0;
    var zoom := PREVIEW_WIDTH / rect.width;
    assert zoom * rect.width == PREVIEW_WIDTH;
    var r := CropViewStyle(Some(natural), imageSize, position, rect);
    assert r.height * ASPECT_RATIO == zoom * rect.width;
  }

  /** The focal-length view: the chosen focal length and its field of view, the
      photo's measured size on screen, and where the rectangle sits. */
  class FocalLengthView {
    var focalLength: int
    var fov: real
    const widestFov: real
    var imageSize: Size
    var position: Point

    /** The focal length is on the slider and its field of view is positive and
        no wider than the widest one. */
    ghost predicate Valid()
      reads this
    {
      && MIN_FOCAL_LENGTH <= focalLength <= MAX_FOCAL_LENGTH
      && 0.0 < fov <= widestFov
    }

    /** The rectangle of the current render: 3:2, and never wider than the
        measured photo. */
    function ViewRect(): (r: Size)
      reads this
      requires Valid()
      ensures r.width == ASPECT_RATIO * r.height
      ensures 0.0 <= imageSize.width ==> 0.0 <= r.width <= imageSize.width
    {
      var r := CalculateViewRect(imageSize.width, fov, widestFov);
      assert 0.0 <= imageSize.width ==> 0.0 <= r.width <= imageSize.width by {
        if 0.0 <= imageSize.width {
          ViewRectWithinImage(imageSize, fov, fov, widestFov);
        }
      }
      r
    }

    constructor(widestFov: real, defaultFov: real)
      requires 0.0 < defaultFov <= widestFov
      ensures Valid()
      ensures focalLength == DEFAULT_FOCAL_LENGTH && fov == defaultFov && this.widestFov == widestFov
      ensures imageSize == Size(0.0, 0.0) && position == Point(0.0, 0.0)
    {
      focalLength := DEFAULT_FOCAL_LENGTH;
      fov := defaultFov;
      this.widestFov := widestFov;
      imageSize := Size(0.0, 0.0);
      position := Point(0.0, 0.0);
    }

    /** `updateImageSize`: record the photo's measured size and centre the
        rectangle of the render that installed the handler, that is, the one
        computed from the size measured before. */
    method UpdateImageSize(elementsPresent: bool, measured: Size)
      requires Valid()
      modifies this
      ensures Valid() && focalLength == old(focalLength) && fov == old(fov)
      ensures !elementsPresent ==> imageSize == old(imageSize) && position == old(position)
      ensures elementsPresent ==> imageSize == measured
      ensures elementsPresent ==> position == Centred(measured, old(ViewRect()))
    {
      if elementsPresent {
        var rect := ViewRect();
        imageSize := measured;
        position := Point((measured.width - rect.width) / 2.0, (measured.height - rect.height) / 2.0);
      }
    }

    /** The photo loads: the handler runs, the rectangle then changes size, so
        the effect runs the handler again on the loaded photo, and the rectangle
        ends up centred for the measured size. */
    method ImageLoaded(measured: Size)
      requires Valid()
      modifies this
      ensures Valid() && focalLength == old(focalLength) && fov == old(fov)
      ensures imageSize == measured
      ensures position == Centred(measured, ViewRect())
    {
      UpdateImageSize(true, measured);
      UpdateImageSize(true, measured);
    }

    /** A new focal length from the slider or a preset: once the photo has been
        measured, the rectangle for the new focal length is centred, whatever
        the earlier clicks were. Choosing the current focal length again
        changes no state, so no effect runs and nothing moves. The field of
        view is a function of the focal length, so the same focal length comes
        with the same field of view. */
    method SetFocalLength(newFocalLength: int, newFov: real)
      requires Valid()
      requires MIN_FOCAL_LENGTH <= newFocalLength <= MAX_FOCAL_LENGTH
      requires 0.0 < newFov <= widestFov
      requires newFocalLength == focalLength ==> newFov == fov
      modifies this
      ensures Valid() && focalLength == newFocalLength && fov == newFov && imageSize == old(imageSize)
      ensures newFocalLength == old(focalLength) ==> position == old(position)
      ensures newFocalLength != old(focalLength) && imageSize.width != 0.0 && imageSize.height != 0.0 ==>
        position == Centred(imageSize, ViewRect())
      ensures imageSize.width == 0.0 || imageSize.height == 0.0 ==> position == old(position)
      ensures newFocalLength != old(focalLength) && 0.0 < imageSize.width && 2.0 * imageSize.width <= 3.0 * imageSize.height ==>
        && 0.0 <= position.x && position.x + ViewRect().width <= imageSize.width
        && 0.0 <= position.y && position.y + ViewRect().height <= imageSize.height
    {
      if newFocalLength == focalLength {
        return;
      }
      focalLength := newFocalLength;
      fov := newFov;
      if imageSize.width != 0.0 && imageSize.height != 0.0 {
        var rect := ViewRect();
        position := Point((imageSize.width - rect.width) / 2.0, (imageSize.height - rect.height) / 2.0);
        if 0.0 < imageSize.width && 2.0 * imageSize.width <= 3.0 * imageSize.height {
          ViewRectWithinImage(imageSize, fov, fov, widestFov);
          CentredInside(imageSize, rect);
        }
      }
    }

    /** `handleContainerClick`: centre the rectangle on the click, then clamp it
        into the container; ignored while the container or the rectangle
        element is missing. */
    method HandleContainerClick(containerPresent: bool, rectPresent: bool,
                                clientX: real, clientY: real, container: Box)
      requires Valid()
      modifies this
      ensures Valid() && focalLength == old(focalLength) && fov == old(fov) && imageSize == old(imageSize)
      ensures !(containerPresent && rectPresent) ==> position == old(position)
      ensures containerPresent && rectPresent ==>
        var rect := ViewRect();
        var clickX := clientX - container.left;
        var clickY := clientY - container.top;
        && position == Point(Clamp(clickX - rect.width / 2.0, container.width - rect.width),
                             Clamp(clickY - rect.height / 2.0, container.height - rect.height))
        && 0.0 <= position.x && 0.0 <= position.y
        && (rect.width <= container.width ==> position.x + rect.width <= container.width)
        && (rect.height <= container.height ==> position.y + rect.height <= container.height)
        && (0.0 <= clickX - rect.width / 2.0 <= container.width - rect.width ==>
              position.x + rect.width / 2.0 == clickX)
        && (0.0 <= clickY - rect.height / 2.0 <= container.height - rect.height ==>
              position.y + rect.height / 2.0 == clickY)
    {
      if !containerPresent || !rectPresent {
        return;
      }
      var rect := ViewRect();
      var clickX := clientX - container.left;
      var clickY := clientY - container.top;
      var newX := clickX - rect.width / 2.0;
      var newY := clickY - rect.height / 2.0;
      var maxX := container.width - rect.width;
      var maxY := container.height - rect.height;
      newX := Clamp(newX, maxX);
      newY := Clamp(newY, maxY);
      position := Point(newX, newY);
    }
  }
}
