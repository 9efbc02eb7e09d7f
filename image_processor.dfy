/** Screenshot downscaling before it is sent on: the largest factor, never
    above 1, that keeps the long edge within 1920 pixels and the pixel
    count within about two megapixels. */
module ImageProcessor {
  import opened Base
  import opened Raster
  import Error

  const MAX_LONG_EDGE: nat := 1920
  const MAX_TOTAL_PIXELS: nat := 2000000

  datatype ResizeResult = ResizeResult(
    originalWidth: nat,
    originalHeight: nat,
    resizedWidth: nat,
    resizedHeight: nat,
    scaleFactor: real,
    imageBase64: string)

  /** A non-negative f64 that may be +infinity (None), which is what a
      division by a zero pixel count or edge produces. */
  function MinExtended(a: Option<real>, b: real): real
  {
    match a
    case None => b
    case Some(x) => if x <= b then x else b
  }

  /** `MAX_LONG_EDGE / long_edge`. */
  function LongEdgeScale(width: nat, height: nat): Option<real>
  {
    var longEdge := Max(width, height);
    if longEdge == 0 then None else Some((MAX_LONG_EDGE as real) / (longEdge as real))
  }

  /** `sqrt(MAX_TOTAL_PIXELS / total_pixels)`. The square root is the
      library's; `pixelRoot` is its value, tied down by the precondition of
      `ScaleFactor`. */
  function TotalPixelsScale(width: nat, height: nat, pixelRoot: real): Option<real>
  {
    if width * height == 0 then None else Some(pixelRoot)
  }

  /** `pixelRoot` is the square root of MAX_TOTAL_PIXELS / (width * height). */
  predicate IsPixelRoot(width: nat, height: nat, pixelRoot: real)
  {
    width * height > 0 ==>
      pixelRoot > 0.0 && pixelRoot * pixelRoot * ((width * height) as real) == MAX_TOTAL_PIXELS as real
  }

  /** The scale factor: the smaller of the two constraint scales, capped
      at 1 so that nothing is ever enlarged. It is below 1 exactly when one
      of the limits is exceeded. */
  function ScaleFactor(width: nat, height: nat, pixelRoot: real): (s: real)
    requires IsPixelRoot(width, height, pixelRoot)
    ensures 0.0 < s <= 1.0
    ensures s < 1.0 <==> Max(width, height) > MAX_LONG_EDGE || width * height > MAX_TOTAL_PIXELS
    ensures Max(width, height) > 0 ==> (Max(width, height) as real) * s <= MAX_LONG_EDGE as real
  {
    var longScale := LongEdgeScale(width, height);
    var pixelScale := TotalPixelsScale(width, height, pixelRoot);
    LongScaleFacts(width, height);
    PixelScaleFacts(width, height, pixelRoot);
    MinExtended(longScale, MinExtended(pixelScale, 1.0))
  }

  lemma LongScaleFacts(width: nat, height: nat)
    ensures var l := LongEdgeScale(width, height);
      && (l.Some? ==> l.value > 0.0 && (Max(width, height) as real) * l.value == MAX_LONG_EDGE as real)
      && (l.Some? ==> (l.value < 1.0 <==> Max(width, height) > MAX_LONG_EDGE))
      && (l.None? ==> Max(width, height) == 0)
  {
    var longEdge := Max(width, height);
    if longEdge > 0 {
      var q := (MAX_LONG_EDGE as real) / (longEdge as real);
      assert (longEdge as real) * q == MAX_LONG_EDGE as real;
      if q < 1.0 {
        MulLess(q, longEdge as real);
      } else {
        MulAtLeast(q, longEdge as real);
      }
    }
  }

  lemma PixelScaleFacts(width: nat, height: nat, pixelRoot: real)
    requires IsPixelRoot(width, height, pixelRoot)
    ensures var p := TotalPixelsScale(width, height, pixelRoot);
      && (p.Some? ==> p.value > 0.0)
      && (p.Some? ==> (p.value < 1.0 <==> width * height > MAX_TOTAL_PIXELS))
      && (p.None? ==> width * height == 0)
  {
    var total := width * height;
    if total > 0 {
      var sq := pixelRoot * pixelRoot;
      assert sq * (total as real) == MAX_TOTAL_PIXELS as real;
      if pixelRoot < 1.0 {
        MulLess(pixelRoot, pixelRoot);
        MulLess(sq, total as real);
      } else {
        MulAtLeast(pixelRoot, pixelRoot);
        MulAtLeast(sq, total as real);
      }
    }
  }

  /** A factor below one shrinks a positive quantity, one at least one
      does not. */
  lemma MulLess(q: real, x: real)
    requires 0.0 <= q < 1.0 && x > 0.0
    ensures q * x < x
  {
    assert (1.0 - q) * x > 0.0;
  }

  lemma MulAtLeast(q: real, x: real)
    requires q >= 1.0 && x > 0.0
    ensures q * x >= x
  {
    assert (q - 1.0) * x >= 0.0;
  }

  /** One resized dimension: `round(orig * scale) as u32`. */
  function ResizedDimension(orig: nat, scaleFactor: real): nat
  {
    SaturateU32(Round((orig as real) * scaleFactor))
  }

  /** `resize_screenshot`: the factor, the resized size, the image
      (resampled only when the factor is below one) and its PNG/base64
      encoding, whose failure is an image error. */
  function ResizeScreenshot(image: RgbaImage, pixelRoot: real, lanczos3: Filter,
                            encodePngBase64: RgbaImage -> Result<string, string>): (r: Result<ResizeResult, Error.XenotesterError>)
    requires IsPixelRoot(image.width, image.height, pixelRoot)
    ensures r.Failure? ==> r.error.ImageError?
    ensures r.Success? ==>
      && r.value.originalWidth == image.width && r.value.originalHeight == image.height
      && r.value.scaleFactor == ScaleFactor(image.width, image.height, pixelRoot)
      && r.value.resizedWidth == ResizedDimension(image.width, r.value.scaleFactor)
      && r.value.resizedHeight == ResizedDimension(image.height, r.value.scaleFactor)
    ensures var s := ScaleFactor(image.width, image.height, pixelRoot);
      var encoded := encodePngBase64(
        if s < 1.0 then ResizeExact(image, ResizedDimension(image.width, s), ResizedDimension(image.height, s), lanczos3)
        else image);
      && (r.Success? <==> encoded.Success?)
      && (r.Success? ==> r.value.imageBase64 == encoded.value)
      && (r.Failure? ==> r.error == Error.ImageError(encoded.error))
  {
    var s := ScaleFactor(image.width, image.height, pixelRoot);
    var resizedWidth := ResizedDimension(image.width, s);
    var resizedHeight := ResizedDimension(image.height, s);
    var finalImage := if s < 1.0 then ResizeExact(image, resizedWidth, resizedHeight, lanczos3) else image;
    match encodePngBase64(finalImage)
    case Failure(e) => Failure(Error.ImageError(e))
    case Success(encoded) =>
      Success(ResizeResult(image.width, image.height, resizedWidth, resizedHeight, s, encoded))
  }

  /** The image actually encoded: resampled only when the factor is below
      one, otherwise passed through untouched. */
  lemma ResamplesOnlyWhenShrinking(image: RgbaImage, pixelRoot: real, lanczos3: Filter,
                                   encodePngBase64: RgbaImage -> Result<string, string>)
    requires IsPixelRoot(image.width, image.height, pixelRoot)
    requires Max(image.width, image.height) <= MAX_LONG_EDGE && image.width * image.height <= MAX_TOTAL_PIXELS
    ensures var r := ResizeScreenshot(image, pixelRoot, lanczos3, encodePngBase64);
      && (encodePngBase64(image).Success? ==>
            r.Success? && r.value.imageBase64 == encodePngBase64(image).value
            && r.value.scaleFactor == 1.0
            && r.value.resizedWidth == image.width && r.value.resizedHeight == image.height)
      && (encodePngBase64(image).Failure? ==> r == Failure(Error.ImageError(encodePngBase64(image).error)))
  {
    RoundOfInt(image.width);
    RoundOfInt(image.height);
  }

  /** An 800x600 screenshot is within both limits and is left as it is. */
  lemma SmallScreenshotUnchanged(pixelRoot: real)
    requires IsPixelRoot(800, 600, pixelRoot)
    ensures ScaleFactor(800, 600, pixelRoot) == 1.0
    ensures ResizedDimension(800, 1.0) == 800 && ResizedDimension(600, 1.0) == 600
  {
    RoundOfInt(800);
    RoundOfInt(600);
  }

  /** After resizing, neither edge exceeds 1920 pixels. */
  lemma ResizedWithinLongEdge(width: nat, height: nat, pixelRoot: real)
    requires IsPixelRoot(width, height, pixelRoot)
    ensures var s := ScaleFactor(width, height, pixelRoot);
      ResizedDimension(width, s) <= MAX_LONG_EDGE && ResizedDimension(height, s) <= MAX_LONG_EDGE
  {
    BothEdgesWithin(width, height, ScaleFactor(width, height, pixelRoot));
  }

  lemma BothEdgesWithin(width: nat, height: nat, s: real)
    requires 0.0 < s
    requires Max(width, height) > 0 ==> (Max(width, height) as real) * s <= MAX_LONG_EDGE as real
    ensures ResizedDimension(width, s) <= MAX_LONG_EDGE && ResizedDimension(height, s) <= MAX_LONG_EDGE
  {
    var longEdge := Max(width, height);
    if longEdge > 0 {
      EdgeWithin(width, longEdge, s);
      EdgeWithin(height, longEdge, s);
    } else {
      assert width == 0 && height == 0;
      assert (0 as real) * s == 0.0;
      RoundOfInt(0);
    }
  }

  lemma EdgeWithin(edge: nat, longEdge: nat, s: real)
    requires edge <= longEdge && 0.0 < s && (longEdge as real) * s <= MAX_LONG_EDGE as real
    ensures ResizedDimension(edge, s) <= MAX_LONG_EDGE
  {
    assert (edge as real) * s <= (longEdge as real) * s by {
      assert ((longEdge - edge) as real) * s >= 0.0;
    }
    RoundAtMost((edge as real) * s, MAX_LONG_EDGE);
  }
}
