/** The image canvas of 05_paint_canvas/03_image_canvas_with_filter.py: an
    original image, the image on show, and filters that always recompute the
    image on show from the original. Pixels are indexed [y, x]. */
module ImageFilter {
  import opened Gui

  /** QColor(pixel) keeps the colour channels of a pixel and makes it opaque. */
  function InvertPixel(p: Color): (q: Color)
    ensures q.red == 255 - p.red && q.green == 255 - p.green && q.blue == 255 - p.blue && q.alpha == 255
  {
    Color(255 - p.red, 255 - p.green, 255 - p.blue)
  }

  function RedChannelPixel(p: Color): (q: Color)
    ensures q.red == p.red && q.green == 0 && q.blue == 0 && q.alpha == 255
  {
    Color(p.red, 0, 0)
  }

  /** The filters computed pixel by pixel in integer arithmetic. */
  predicate IsPixelFilter(name: string) {
    name == "Invert" || name == "Red Channel"
  }

  function FilterPixel(name: string, p: Color): Color
    requires IsPixelFilter(name)
  {
    if name == "Invert" then InvertPixel(p) else RedChannelPixel(p)
  }

  /** The filters whose result the model determines: every one the canvas
      offers except the floating-point Grayscale and Sepia. */
  predicate IsModelledFilter(name: string) {
    IsPixelFilter(name) || name == "Original"
  }

  /** The rows of an image, top to bottom. */
  function Pixels(a: array2<Color>): (rows: seq<seq<Color>>)
    reads a
    ensures |rows| == a.Length0
    ensures forall y :: 0 <= y < a.Length0 ==> |rows[y]| == a.Length1
    ensures forall y, x :: 0 <= y < a.Length0 && 0 <= x < a.Length1 ==> rows[y][x] == a[y, x]
  {
    seq(a.Length0, y requires 0 <= y < a.Length0 reads a =>
      seq(a.Length1, x requires 0 <= x < a.Length1 reads a => a[y, x]))
  }

  predicate SameShape(a: seq<seq<Color>>, b: seq<seq<Color>>) {
    |a| == |b| && forall y :: 0 <= y < |a| ==> |a[y]| == |b[y]|
  }

  /** The image a modelled filter makes of `image`. */
  function Filtered(name: string, image: seq<seq<Color>>): (r: seq<seq<Color>>)
    requires IsModelledFilter(name)
    ensures SameShape(r, image)
    ensures name == "Original" ==> r == image
    ensures IsPixelFilter(name) ==>
      forall y, x :: 0 <= y < |r| && 0 <= x < |r[y]| ==> r[y][x] == FilterPixel(name, image[y][x])
  {
    if name == "Original" then
      image
    else
      seq(|image|, y requires 0 <= y < |image| =>
        seq(|image[y]|, x requires 0 <= x < |image[y]| => FilterPixel(name, image[y][x])))
  }

  predicate Opaque(image: seq<seq<Color>>) {
    forall y, x :: 0 <= y < |image| && 0 <= x < |image[y]| ==> image[y][x].alpha == 255
  }

  /** Inverting an opaque image twice gives it back. */
  lemma InvertTwice(image: seq<seq<Color>>)
    requires Opaque(image)
    ensures Filtered("Invert", Filtered("Invert", image)) == image
  {
    var once := Filtered("Invert", image);
    var twice := Filtered("Invert", once);
    forall y | 0 <= y < |image|
      ensures twice[y] == image[y]
    {
      forall x | 0 <= x < |image[y]|
        ensures twice[y][x] == image[y][x]
      {
        assert once[y][x] == InvertPixel(image[y][x]);
      }
    }
  }

  /** The red channel filter is idempotent on images. */
  lemma RedChannelTwice(image: seq<seq<Color>>)
    ensures Filtered("Red Channel", Filtered("Red Channel", image)) == Filtered("Red Channel", image)
  {
    var once := Filtered("Red Channel", image);
    var twice := Filtered("Red Channel", once);
    forall y | 0 <= y < |image|
      ensures twice[y] == once[y]
    {
      forall x | 0 <= x < |image[y]|
        ensures twice[y][x] == once[y][x]
      {
      }
    }
  }

  /** Writes into `result` the filtered pixels of `image`, row by row. */
  method FillPixels(image: array2<Color>, result: array2<Color>, name: string)
    requires IsPixelFilter(name)
    requires result != image
    requires result.Length0 == image.Length0 && result.Length1 == image.Length1
    modifies result
    ensures forall y, x :: 0 <= y < result.Length0 && 0 <= x < result.Length1 ==>
      result[y, x] == FilterPixel(name, image[y, x])
  {
    var height, width := image.Length0, image.Length1;
    var y := 0;
    while y < height
      invariant 0 <= y <= height
      invariant forall j, i :: 0 <= j < y && 0 <= i < width ==> result[j, i] == FilterPixel(name, image[j, i])
    {
      var x := 0;
      while x < width
        invariant 0 <= x <= width
        invariant forall j, i :: 0 <= j < y && 0 <= i < width ==> result[j, i] == FilterPixel(name, image[j, i])
        invariant forall i :: 0 <= i < x ==> result[y, i] == FilterPixel(name, image[y, i])
      {
        result[y, x] := FilterPixel(name, image[y, x]);
        x := x + 1;
      }
      y := y + 1;
    }
  }

  /** QImage/QPixmap copy: a new image with the same pixels. */
  method CopyImage(image: array2<Color>) returns (result: array2<Color>)
    ensures fresh(result)
    ensures result.Length0 == image.Length0 && result.Length1 == image.Length1
    ensures forall y, x :: 0 <= y < result.Length0 && 0 <= x < result.Length1 ==> result[y, x] == image[y, x]
  {
    var height, width := image.Length0, image.Length1;
    result := new Color[height, width];
    var y := 0;
    while y < height
      invariant 0 <= y <= height
      invariant forall j, i :: 0 <= j < y && 0 <= i < width ==> result[j, i] == image[j, i]
    {
      var x := 0;
      while x < width
        invariant 0 <= x <= width
        invariant forall j, i :: 0 <= j < y && 0 <= i < width ==> result[j, i] == image[j, i]
        invariant forall i :: 0 <= i < x ==> result[y, i] == image[y, i]
      {
        result[y, x] := image[y, x];
        x := x + 1;
      }
      y := y + 1;
    }
  }

  /** Equal sizes and equal pixels make equal images. */
  lemma SamePixels(a: array2<Color>, b: array2<Color>, rows: seq<seq<Color>>)
    requires a.Length0 == |rows| && forall y :: 0 <= y < |rows| ==> |rows[y]| == a.Length1
    requires forall y, x :: 0 <= y < a.Length0 && 0 <= x < a.Length1 ==> a[y, x] == rows[y][x]
    ensures Pixels(a) == rows
  {
    var p := Pixels(a);
    forall y | 0 <= y < |rows|
      ensures p[y] == rows[y]
    {
    }
  }

  class ImageCanvas {
    /** The loaded image; null also stands for a pixmap that failed to load. */
    var original: array2?<Color>
    /** The image on show. */
    var current: array2?<Color>

    constructor ()
      ensures original == null && current == null
    {
      original := null;
      current := null;
    }

    /** `load_image` once the file has been decoded, or has failed to. */
    method LoadImage(decoded: array2?<Color>) returns (ok: bool)
      modifies this
      ensures original == decoded
      ensures ok <==> decoded != null
      ensures decoded == null ==> current == old(current)
      ensures decoded != null ==> current != null && fresh(current) && Pixels(current) == Pixels(decoded)
    {
      original := decoded;
      if original == null {
        return false;
      }
      current := CopyImage(original);
      SamePixels(current, current, Pixels(original));
      return true;
    }

    /** Recomputes the image on show from the original. Grayscale, Sepia and
        unknown names give an image of the right size whose pixels the model
        leaves open. */
    method ApplyFilter(filterName: string)
      modifies this
      ensures original == old(original)
      ensures original == null ==> current == old(current)
      ensures original != null ==>
        current != null && fresh(current)
        && current.Length0 == original.Length0 && current.Length1 == original.Length1
      ensures original != null && IsModelledFilter(filterName) ==>
        Pixels(current) == Filtered(filterName, Pixels(original))
    {
      if original == null {
        return;
      }
      var image := original;
      var height, width := image.Length0, image.Length1;
      var resultImage := new Color[height, width];
      if filterName == "Invert" || filterName == "Red Channel" {
        FillPixels(image, resultImage, filterName);
      } else if filterName == "Original" {
        resultImage := CopyImage(image);
      }
      current := resultImage;
      if IsModelledFilter(filterName) {
        SamePixels(current, image, Filtered(filterName, Pixels(image)));
      }
    }

    method ResetImage()
      modifies this
      ensures original == old(original)
      ensures original == null ==> current == old(current)
      ensures original != null ==> current != null && fresh(current) && Pixels(current) == Pixels(original)
    {
      if original != null {
        current := CopyImage(original);
        SamePixels(current, current, Pixels(original));
      }
    }
  }

  /** Filters read the original, never the image on show: applying one
      filter and then another is the same as applying the second alone. */
  method FilterThenFilter(canvas: ImageCanvas, first: string, second: string)
    requires canvas.original != null && IsModelledFilter(second)
    modifies canvas
    ensures canvas.original == old(canvas.original) && canvas.current != null
    ensures Pixels(canvas.current) == Filtered(second, Pixels(canvas.original))
  {
    canvas.ApplyFilter(first);
    canvas.ApplyFilter(second);
  }
}
