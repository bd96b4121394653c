/**
 * `UIImage.suitableSize(limit:)`: the size to show an image at, given a
 * width or a height to fit, clamped to the screen.
 */
module ImageSize {
  import opened Geometry

  datatype Limit = Width(width: real) | Height(height: real)

  function Min(x: real, y: real): real {
    if x <= y then x else y
  }

  /**
   * The limited side takes the limit; the other side is the proportional
   * length, clamped to the screen's length on that side.
   */
  function SuitableSize(image: PositiveSize, limit: Limit, screen: Size): (r: Size)
    ensures limit.Width? ==> r.width == limit.width && r.height <= screen.height
    ensures limit.Height? ==> r.height == limit.height && r.width <= screen.width
  {
    match limit
    case Width(width) =>
      var height := (width / image.width) * image.height;
      Size(width, Min(height, screen.height))
    case Height(height) =>
      var width := (height / image.height) * image.width;
      Size(Min(width, screen.width), height)
  }

  /** The aspect ratio of `r` equals the image's (cross-multiplied, so no side may be zero). */
  predicate SameAspect(r: Size, image: PositiveSize) {
    r.height * image.width == r.width * image.height
  }

  /**
   * With a width limit, the height is the largest one that both fits on the
   * screen and does not exceed the proportional height; it keeps the image's
   * aspect ratio exactly when it is not clamped.
   */
  lemma WidthLimited(image: PositiveSize, width: real, screen: Size)
    ensures var r := SuitableSize(image, Width(width), screen);
            && r.height <= screen.height
            && r.height * image.width <= width * image.height
            && (r.height == screen.height || SameAspect(r, image))
            && (SameAspect(r, image) <== width * image.height <= screen.height * image.width)
  {
    var r := SuitableSize(image, Width(width), screen);
    var h := (width / image.width) * image.height;
    assert h * image.width == width * image.height;
    if h <= screen.height {
      assert r.height == h;
    } else {
      assert r.height == screen.height;
      assert screen.height * image.width < h * image.width;
    }
  }

  /**
   * With a height limit, the width is the largest one that both fits on the
   * screen and does not exceed the proportional width; it keeps the image's
   * aspect ratio exactly when it is not clamped.
   */
  lemma HeightLimited(image: PositiveSize, height: real, screen: Size)
    ensures var r := SuitableSize(image, Height(height), screen);
            && r.width <= screen.width
            && r.width * image.height <= height * image.width
            && (r.width == screen.width || SameAspect(r, image))
            && (SameAspect(r, image) <== height * image.width <= screen.width * image.height)
  {
    var r := SuitableSize(image, Height(height), screen);
    var w := (height / image.height) * image.width;
    assert w * image.height == height * image.width;
    if w <= screen.width {
      assert r.width == w;
    } else {
      assert r.width == screen.width;
      assert screen.width * image.height < w * image.height;
    }
  }
}
