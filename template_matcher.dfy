/** The hint-image locator: decode a template, align its scale with the
    already downscaled screenshot, reject mostly transparent templates,
    composite onto white and convert to luma, guard the size, correlate,
    guard against non-finite scores, and classify against the threshold.
    Every stage that fails ends the pipeline with its own error code. */
module TemplateMatcher {
  import opened Base
  import opened Raster
  import Error

  // ---------------------------------------------------------------------
  // Error codes and results
  // ---------------------------------------------------------------------

  datatype MatchErrorCode =
    | ScreenshotDecodeError
    | TemplateBase64DecodeError
    | TemplateImageDecodeError
    | InsufficientOpacity
    | NonFiniteConfidence
    | TemplateTooLarge
  {
    /** Will not go away with a different screenshot. */
    function IsPermanent(): (permanent: bool)
      ensures permanent <==> !(ScreenshotDecodeError? || TemplateTooLarge?)
    {
      match this
      case ScreenshotDecodeError => false
      case TemplateBase64DecodeError => true
      case TemplateImageDecodeError => true
      case InsufficientOpacity => true
      case NonFiniteConfidence => true
      case TemplateTooLarge => false
    }

    /** May go away once the screen content changes size or position. */
    function IsSizeRelated(): (sizeRelated: bool)
      ensures sizeRelated ==> !IsPermanent()
    {
      TemplateTooLarge?
    }
  }

  /** The two facets split the codes into three disjoint groups: permanent,
      size-related, and the screenshot decode failure that is neither. */
  lemma ErrorCodeFacets(c: MatchErrorCode)
    ensures !(c.IsPermanent() && c.IsSizeRelated())
    ensures c.IsSizeRelated() <==> c == TemplateTooLarge
    ensures !c.IsPermanent() && !c.IsSizeRelated() <==> c == ScreenshotDecodeError
  {
  }

  datatype MatchResult = MatchResult(
    found: bool,
    centerX: Option<int>,
    centerY: Option<int>,
    confidence: Option<real>,
    templateWidth: nat,
    templateHeight: nat,
    error: Option<string>,
    errorCode: Option<MatchErrorCode>)
  {
    /** What every result the matcher returns satisfies: a found match has
        a center, a confidence and no error; an error always comes with its
        code and is never a match; the confidence is absent only for errors
        raised before a score existed, and is 0.0 for an oversized template. */
    predicate Consistent()
    {
      && (centerX.Some? <==> found)
      && (centerY.Some? <==> found)
      && (found ==> confidence.Some? && error.None? && errorCode.None?)
      && (error.Some? <==> errorCode.Some?)
      && (errorCode.None? ==> confidence.Some?)
      && (errorCode == Some(TemplateTooLarge) ==> confidence == Some(0.0))
      && (errorCode.Some? && errorCode != Some(TemplateTooLarge) ==> confidence.None?)
    }
  }

  // ---------------------------------------------------------------------
  // Foreign collaborators
  // ---------------------------------------------------------------------

  /** The value of the correlation surface's maximum, as an f32 may hold it. */
  datatype Score = Finite(value: real) | NonFinite

  /** What `find_extremes` reports about the correlation surface: its
      maximum and the top-left offset where the maximum sits. */
  datatype Extremes = Extremes(maxValue: Score, maxX: nat, maxY: nat)

  /** Library code the matcher calls but does not define: base64 decoding,
      image decoding (read through `to_rgba8`), the screenshot's own luma
      conversion (`to_luma8`), the Lanczos3 filter, normalised
      cross-correlation followed by `find_extremes`, and the `{:.1}`
      formatting of an f32. Failures carry the library's message. */
  datatype Externals = Externals(
    base64Decode: string -> Result<seq<byte>, string>,
    loadImage: seq<byte> -> Result<RgbaImage, string>,
    screenshotLuma: Rgba -> byte,
    lanczos3: Filter,
    matchTemplate: (GrayImage, GrayImage) -> Extremes,
    formatTenths: real -> string)

  // ---------------------------------------------------------------------
  // Decoding
  // ---------------------------------------------------------------------

  /** `decode_base64_image`, used for the screenshot. */
  function DecodeBase64Image(data: string, ext: Externals): (r: Result<RgbaImage, Error.XenotesterError>)
    ensures r.Failure? ==> r.error.ImageError?
    ensures ext.base64Decode(data).Failure? ==>
      r == Failure(Error.ImageError("Base64 decode error: " + ext.base64Decode(data).error))
    ensures ext.base64Decode(data).Success? ==>
      match ext.loadImage(ext.base64Decode(data).value)
      case Success(img) => r == Success(img)
      case Failure(e) => r == Failure(Error.ImageError("Image decode error: " + e))
  {
    match ext.base64Decode(data)
    case Failure(e) => Failure(Error.ImageError("Base64 decode error: " + e))
    case Success(bytes) =>
      match ext.loadImage(bytes)
      case Failure(e) => Failure(Error.ImageError("Image decode error: " + e))
      case Success(img) => Success(img)
  }

  /** `decode_template_image`: like the screenshot decoder, but each of the
      two failures carries its own code. */
  function DecodeTemplateImage(data: string, ext: Externals): (r: Result<RgbaImage, (string, MatchErrorCode)>)
    ensures r.Failure? ==> r.error.1 == TemplateBase64DecodeError || r.error.1 == TemplateImageDecodeError
    ensures r.Failure? && r.error.1 == TemplateBase64DecodeError <==> ext.base64Decode(data).Failure?
    ensures r.Failure? && r.error.1 == TemplateImageDecodeError <==>
      ext.base64Decode(data).Success? && ext.loadImage(ext.base64Decode(data).value).Failure?
    ensures r.Success? ==> r.value == ext.loadImage(ext.base64Decode(data).value).value
  {
    match ext.base64Decode(data)
    case Failure(e) => Failure(("Base64 decode error: " + e, TemplateBase64DecodeError))
    case Success(bytes) =>
      match ext.loadImage(bytes)
      case Failure(e) => Failure(("Image decode error: " + e, TemplateImageDecodeError))
      case Success(img) => Success(img)
  }

  /** The same two inputs decode to the same image either way; only the
      shape of the failure differs. */
  lemma DecodersAgree(data: string, ext: Externals)
    ensures DecodeBase64Image(data, ext).Success? <==> DecodeTemplateImage(data, ext).Success?
    ensures DecodeBase64Image(data, ext).Success? ==>
      DecodeBase64Image(data, ext).value == DecodeTemplateImage(data, ext).value
    ensures DecodeTemplateImage(data, ext).Failure? ==>
      DecodeBase64Image(data, ext).error.msg == DecodeTemplateImage(data, ext).error.0
  {
  }

  // ---------------------------------------------------------------------
  // Scale alignment
  // ---------------------------------------------------------------------

  /** One post-scale dimension: `max(1, round(orig * s) as u32)`. */
  function ScaledDimension(orig: nat, scaleFactor: real): (d: nat)
    ensures d >= 1
    ensures scaleFactor < 1.0 ==> d <= Max(1, orig)
  {
    ScaledNotLarger(orig, scaleFactor);
    Max(1, SaturateU32(Round((orig as real) * scaleFactor)))
  }

  lemma ScaledNotLarger(orig: nat, scaleFactor: real)
    ensures scaleFactor < 1.0 ==> Round((orig as real) * scaleFactor) <= orig
  {
    if scaleFactor < 1.0 {
      assert (orig as real) * scaleFactor <= orig as real by {
        assert (orig as real) * (1.0 - scaleFactor) >= 0.0;
      }
      RoundAtMost((orig as real) * scaleFactor, orig);
    }
  }

  /** The alignment the worked example describes: a 100-pixel edge at half
      scale becomes 50 pixels. */
  lemma ScaledDimensionHalf()
    ensures ScaledDimension(100, 0.5) == 50
  {
    RoundOfInt(50);
  }

  /** Brings the template to the screenshot's scale: resampled to the
      scaled size when the factor is below one, untouched otherwise. */
  function ScaleAlign(img: RgbaImage, scaleFactor: real, filter: Filter): (t: RgbaImage)
    ensures scaleFactor < 1.0 ==>
      t.width == ScaledDimension(img.width, scaleFactor) && t.height == ScaledDimension(img.height, scaleFactor)
    ensures scaleFactor < 1.0 ==>
      1 <= t.width <= Max(1, img.width) && 1 <= t.height <= Max(1, img.height)
    ensures scaleFactor >= 1.0 ==> t == img
  {
    if scaleFactor < 1.0 then
      ResizeExact(img, ScaledDimension(img.width, scaleFactor), ScaledDimension(img.height, scaleFactor), filter)
    else
      img
  }

  // ---------------------------------------------------------------------
  // Opacity gate
  // ---------------------------------------------------------------------

  const MIN_OPACITY_RATIO: real := 0.1

  /** The number of pixels whose alpha is not zero. */
  function CountOpaque(px: seq<Rgba>): (n: nat)
    ensures n <= |px|
    ensures n == 0 <==> forall i :: 0 <= i < |px| ==> px[i].a == 0
    ensures n == |px| <==> forall i :: 0 <= i < |px| ==> px[i].a > 0
  {
    if px == [] then 0
    else
      var rest := CountOpaque(px[1..]);
      assert forall i :: 1 <= i < |px| ==> px[i] == px[1..][i - 1];
      (if px[0].a > 0 then 1 else 0) + rest
  }

  lemma {:induction false} CountOpaqueAppend(a: seq<Rgba>, b: seq<Rgba>)
    ensures CountOpaque(a + b) == CountOpaque(a) + CountOpaque(b)
  {
    if a == [] {
      assert a + b == b;
    } else {
      assert (a + b)[1..] == a[1..] + b;
      CountOpaqueAppend(a[1..], b);
    }
  }

  /** `calculate_opacity_ratio`: the share of pixels that are not fully
      transparent, and 0 for an image without pixels. */
  function OpacityRatio(img: RgbaImage): (ratio: real)
    ensures 0.0 <= ratio <= 1.0
    ensures ratio == 0.0 <==> forall i :: 0 <= i < |img.pixels| ==> img.pixels[i].a == 0
    ensures ratio == 1.0 <==> |img.pixels| > 0 && forall i :: 0 <= i < |img.pixels| ==> img.pixels[i].a > 0
  {
    // The pixel count is width * height by construction of an image.
    var total := |img.pixels|;
    if total == 0 then 0.0
    else
      var n := CountOpaque(img.pixels);
      ShareBounds(n, total);
      (n as real) / (total as real)
  }

  lemma ShareBounds(n: nat, total: nat)
    requires 0 < total && n <= total
    ensures 0.0 <= (n as real) / (total as real) <= 1.0
    ensures (n as real) / (total as real) == 0.0 <==> n == 0
    ensures (n as real) / (total as real) == 1.0 <==> n == total
  {
  }

  /** An image in which exactly half of the pixels are opaque, in any
      arrangement (alternating, as in the unit test, or in two blocks), has
      opacity exactly one half. */
  lemma HalfOpaqueRatio(img: RgbaImage, half: nat)
    requires half > 0 && |img.pixels| == 2 * half
    requires CountOpaque(img.pixels) == half
    ensures OpacityRatio(img) == 0.5
  {
    HalfShare(half);
  }

  /** Pixels that alternate opaque, transparent, opaque, ... from the
      first one: exactly half of an even number of them are opaque. */
  lemma {:induction false} AlternatingHalfOpaque(px: seq<Rgba>, half: nat)
    requires |px| == 2 * half
    requires forall i :: 0 <= i < |px| ==> (px[i].a > 0 <==> i % 2 == 0)
    ensures CountOpaque(px) == half
  {
    if half > 0 {
      var rest := px[2..];
      assert forall i :: 0 <= i < |rest| ==> rest[i] == px[i + 2];
      assert forall i :: 0 <= i < |rest| ==> (rest[i].a > 0 <==> i % 2 == 0) by {
        forall i | 0 <= i < |rest|
          ensures rest[i].a > 0 <==> i % 2 == 0
        {
          assert (i + 2) % 2 == i % 2;
        }
      }
      AlternatingHalfOpaque(rest, half - 1);
      assert px == px[..2] + rest;
      CountOpaqueAppend(px[..2], rest);
      assert px[..2][1..] == [px[1]];
      assert CountOpaque(px[..2]) == 1 by {
        assert px[0].a > 0 && px[1].a == 0;
        assert CountOpaque([px[1]]) == 0;
      }
    }
  }

  lemma HalfShare(h: nat)
    requires h > 0
    ensures (h as real) / ((2 * h) as real) == 0.5
  {
    assert (2 * h) as real == 2.0 * (h as real);
  }

  function OpacityMessage(ratio: real, ext: Externals): string
  {
    "Template has insufficient opacity (" + ext.formatTenths(ratio * 100.0) + "% < "
      + ext.formatTenths(MIN_OPACITY_RATIO * 100.0)
      + "% minimum). Mostly transparent images cannot be reliably matched."
  }

  // ---------------------------------------------------------------------
  // Compositing onto white and luma conversion
  // ---------------------------------------------------------------------

  /** One colour channel blended over white: c * alpha + 255 * (1 - alpha). */
  function CompositeChannel(c: byte, a: byte): (v: real)
    ensures 0.0 <= v <= 255.0
    ensures a == 0 ==> v == 255.0
    ensures a == 255 ==> v == c as real
  {
    var alpha := (a as real) / 255.0;
    var blended := (c as real) * alpha;
    ChannelBound(c as real, alpha);
    assert blended <= 255.0 * alpha;
    blended + 255.0 * (1.0 - alpha)
  }

  lemma ChannelBound(c: real, alpha: real)
    requires 0.0 <= c <= 255.0 && 0.0 <= alpha <= 1.0
    ensures 0.0 <= c * alpha <= 255.0 * alpha
  {
    MulNonneg(c, alpha);
    MulNonneg(255.0 - c, alpha);
  }

  lemma MulNonneg(x: real, y: real)
    requires x >= 0.0 && y >= 0.0
    ensures x * y >= 0.0
  {
  }

  /** The perceptual luma 0.299 R + 0.587 G + 0.114 B of the blended pixel. */
  function CompositeLuma(p: Rgba): (v: real)
    ensures 0.0 <= v <= 255.0
  {
    0.299 * CompositeChannel(p.r, p.a) + 0.587 * CompositeChannel(p.g, p.a) + 0.114 * CompositeChannel(p.b, p.a)
  }

  /** The grey byte of one pixel: the rounded luma, which already lies in
      the byte range, so the saturating cast never clamps. */
  function CompositeGray(p: Rgba): (g: byte)
    ensures g as int == Round(CompositeLuma(p))
    ensures p.a == 0 ==> g == 255
    ensures p.a == 255 ==> g as int == Round(0.299 * p.r as real + 0.587 * p.g as real + 0.114 * p.b as real)
  {
    var v := CompositeLuma(p);
    RoundAtMost(v, 255);
    RoundOfInt(255);
    SaturateU8(Round(v))
  }

  /** Opaque black stays black, and black at alpha 128 becomes mid grey. */
  lemma CompositeGrayBlack()
    ensures CompositeGray(Rgba(0, 0, 0, 255)) == 0
    ensures CompositeGray(Rgba(0, 0, 0, 128)) == 127
    ensures CompositeGray(Rgba(255, 255, 255, 255)) == 255
  {
    RoundOfInt(0);
    RoundOfInt(127);
    RoundOfInt(255);
    assert CompositeLuma(Rgba(0, 0, 0, 128)) == 127.0;
  }

  /** `convert_to_grayscale_with_alpha`: every pixel composited on its own. */
  function ConvertToGrayscaleWithAlpha(img: RgbaImage): (gray: GrayImage)
    ensures gray.width == img.width && gray.height == img.height
    ensures forall i :: 0 <= i < |img.pixels| ==> gray.luma[i] == CompositeGray(img.pixels[i])
    ensures forall i :: 0 <= i < |img.pixels| && img.pixels[i].a == 0 ==> gray.luma[i] == 255
  {
    MapToGray(img, CompositeGray)
  }

  // ---------------------------------------------------------------------
  // The per-template pipeline
  // ---------------------------------------------------------------------

  const TOO_LARGE_MESSAGE: string := "Template is larger than screenshot after scaling"

  const NON_FINITE_MESSAGE: string :=
    "Template matching produced non-finite confidence value. Template may have insufficient variance (e.g., single-color image)."

  /** The last stage: a finite score at or above the threshold is a match
      whose center is the matched top-left corner plus half the template
      size (integer halving); below it, no match, but the score is kept. */
  function Classify(confidence: real, threshold: real, matchX: nat, matchY: nat, width: nat, height: nat): (r: MatchResult)
    ensures r.Consistent()
    ensures r.found <==> confidence >= threshold
    ensures r.confidence == Some(confidence) && r.error.None? && r.errorCode.None?
    ensures r.found ==> r.centerX.value - matchX == width / 2 && r.centerY.value - matchY == height / 2
    ensures r.templateWidth == width && r.templateHeight == height
  {
    if confidence >= threshold then
      MatchResult(true, Some(matchX + width / 2), Some(matchY + height / 2), Some(confidence), width, height, None, None)
    else
      MatchResult(false, None, None, Some(confidence), width, height, None, None)
  }

  /** The reported center lies inside the screenshot whenever the maximum
      sits where the template fits, as it does on the correlation surface. */
  lemma CenterInsideScreenshot(confidence: real, threshold: real, matchX: nat, matchY: nat,
                               width: nat, height: nat, screenWidth: nat, screenHeight: nat)
    requires 1 <= width && 1 <= height
    requires matchX + width <= screenWidth && matchY + height <= screenHeight
    requires confidence >= threshold
    ensures var r := Classify(confidence, threshold, matchX, matchY, width, height);
      0 <= r.centerX.value < screenWidth && 0 <= r.centerY.value < screenHeight
  {
  }

  /** `find_template_internal`: the whole chain for one template against
      the already decoded grey screenshot. */
  function FindTemplateInternal(screen: GrayImage, templateBase64: string, scaleFactor: real,
                                threshold: real, ext: Externals): (r: MatchResult)
    ensures r.Consistent()
    ensures r.errorCode != Some(ScreenshotDecodeError)
    ensures r.errorCode == Some(TemplateBase64DecodeError) || r.errorCode == Some(TemplateImageDecodeError)
      <==> DecodeTemplateImage(templateBase64, ext).Failure?
    ensures DecodeTemplateImage(templateBase64, ext).Success? && scaleFactor < 1.0 ==>
      r.templateWidth >= 1 && r.templateHeight >= 1
    ensures DecodeTemplateImage(templateBase64, ext).Success? ==>
      var t := ScaleAlign(DecodeTemplateImage(templateBase64, ext).value, scaleFactor, ext.lanczos3);
      r.templateWidth == t.width && r.templateHeight == t.height
  {
    match DecodeTemplateImage(templateBase64, ext)
    case Failure(e) =>
      MatchResult(false, None, None, None, 0, 0, Some(e.0), Some(e.1))
    case Success(original) =>
      var template := ScaleAlign(original, scaleFactor, ext.lanczos3);
      var ratio := OpacityRatio(template);
      if ratio < MIN_OPACITY_RATIO then
        MatchResult(false, None, None, None, template.width, template.height,
                    Some(OpacityMessage(ratio, ext)), Some(InsufficientOpacity))
      else
        var gray := ConvertToGrayscaleWithAlpha(template);
        if gray.width > screen.width || gray.height > screen.height then
          MatchResult(false, None, None, Some(0.0), gray.width, gray.height,
                      Some(TOO_LARGE_MESSAGE), Some(TemplateTooLarge))
        else
          var extremes := ext.matchTemplate(screen, gray);
          match extremes.maxValue
          case NonFinite =>
            MatchResult(false, None, None, None, gray.width, gray.height,
                        Some(NON_FINITE_MESSAGE), Some(NonFiniteConfidence))
          case Finite(confidence) =>
            Classify(confidence, threshold, extremes.maxX, extremes.maxY, gray.width, gray.height)
  }

  /** The worked example of scale alignment, end to end: a decoded
      100x100 template matched at half scale reports a 50x50 template,
      whatever the screenshot, the threshold or the outcome. */
  lemma HalfScaleReportsHalfSize(screen: GrayImage, templateBase64: string, threshold: real,
                                 ext: Externals, img: RgbaImage)
    requires DecodeTemplateImage(templateBase64, ext) == Success(img)
    requires img.width == 100 && img.height == 100
    ensures var r := FindTemplateInternal(screen, templateBase64, 0.5, threshold, ext);
      r.templateWidth == 50 && r.templateHeight == 50
  {
    ScaledDimensionHalf();
  }

  /** `find_template_with_decoded_screenshot`: a plain delegation. */
  function FindTemplateWithDecodedScreenshot(screen: GrayImage, templateBase64: string, scaleFactor: real,
                                             threshold: real, ext: Externals): (r: MatchResult)
    ensures r == FindTemplateInternal(screen, templateBase64, scaleFactor, threshold, ext)
  {
    FindTemplateInternal(screen, templateBase64, scaleFactor, threshold, ext)
  }

  // ---------------------------------------------------------------------
  // What each stage decides, and that it hides every later stage
  // ---------------------------------------------------------------------

  /** A template that does not decode fails with its decode code, no score
      and 0x0 dimensions; nothing after decoding influences the result:
      not the screenshot, the scale, the threshold, the resampler or the
      correlator. */
  lemma DecodeFailureStopsPipeline(screen: GrayImage, templateBase64: string, scaleFactor: real, threshold: real,
                                   ext: Externals, otherScreen: GrayImage, otherScale: real, otherThreshold: real,
                                   otherFilter: Filter, otherMatcher: (GrayImage, GrayImage) -> Extremes)
    requires DecodeTemplateImage(templateBase64, ext).Failure?
    ensures var r := FindTemplateInternal(screen, templateBase64, scaleFactor, threshold, ext);
      && !r.found && r.confidence.None? && r.templateWidth == 0 && r.templateHeight == 0
      && r.errorCode == Some(DecodeTemplateImage(templateBase64, ext).error.1)
      && r == FindTemplateInternal(otherScreen, templateBase64, otherScale, otherThreshold,
                                   ext.(lanczos3 := otherFilter, matchTemplate := otherMatcher))
  {
  }

  /** A template whose aligned version is under 10% opaque is rejected with
      its post-scale size and no score, whatever its pixels, whatever the
      screenshot (even one smaller than the template: the opacity gate comes
      before the size guard) and whatever the correlator would say. */
  lemma OpacityGateBeforeSizeGuard(screen: GrayImage, templateBase64: string, scaleFactor: real, threshold: real,
                                   ext: Externals, img: RgbaImage, otherScreen: GrayImage, otherThreshold: real,
                                   otherMatcher: (GrayImage, GrayImage) -> Extremes)
    requires DecodeTemplateImage(templateBase64, ext) == Success(img)
    requires OpacityRatio(ScaleAlign(img, scaleFactor, ext.lanczos3)) < MIN_OPACITY_RATIO
    ensures var r := FindTemplateInternal(screen, templateBase64, scaleFactor, threshold, ext);
      var t := ScaleAlign(img, scaleFactor, ext.lanczos3);
      && !r.found && r.confidence.None? && r.errorCode == Some(InsufficientOpacity)
      && r.templateWidth == t.width && r.templateHeight == t.height
      && r == FindTemplateInternal(otherScreen, templateBase64, scaleFactor, otherThreshold,
                                   ext.(matchTemplate := otherMatcher))
  {
  }

  /** A fully transparent template is always rejected by the opacity gate. */
  lemma TransparentTemplateRejected(screen: GrayImage, templateBase64: string, scaleFactor: real, threshold: real,
                                    ext: Externals, img: RgbaImage)
    requires DecodeTemplateImage(templateBase64, ext) == Success(img)
    requires forall i :: 0 <= i < |ScaleAlign(img, scaleFactor, ext.lanczos3).pixels| ==>
      ScaleAlign(img, scaleFactor, ext.lanczos3).pixels[i].a == 0
    ensures var r := FindTemplateInternal(screen, templateBase64, scaleFactor, threshold, ext);
      !r.found && r.errorCode == Some(InsufficientOpacity)
  {
  }

  /** An opaque enough template larger than the screenshot in either
      direction fails as too large, reporting the score 0.0, before any
      correlation is computed. */
  lemma SizeGuard(screen: GrayImage, templateBase64: string, scaleFactor: real, threshold: real,
                  ext: Externals, img: RgbaImage, otherThreshold: real,
                  otherMatcher: (GrayImage, GrayImage) -> Extremes)
    requires DecodeTemplateImage(templateBase64, ext) == Success(img)
    requires var t := ScaleAlign(img, scaleFactor, ext.lanczos3);
      OpacityRatio(t) >= MIN_OPACITY_RATIO && (t.width > screen.width || t.height > screen.height)
    ensures var r := FindTemplateInternal(screen, templateBase64, scaleFactor, threshold, ext);
      && !r.found && r.confidence == Some(0.0) && r.errorCode == Some(TemplateTooLarge)
      && r == FindTemplateInternal(screen, templateBase64, scaleFactor, otherThreshold,
                                   ext.(matchTemplate := otherMatcher))
  {
  }

  /** A non-finite correlation maximum never surfaces as a score: it
      becomes the non-finite error, whatever the threshold. */
  lemma NonFiniteGuard(screen: GrayImage, templateBase64: string, scaleFactor: real, threshold: real,
                       ext: Externals, img: RgbaImage)
    requires DecodeTemplateImage(templateBase64, ext) == Success(img)
    requires var t := ScaleAlign(img, scaleFactor, ext.lanczos3);
      && OpacityRatio(t) >= MIN_OPACITY_RATIO && t.width <= screen.width && t.height <= screen.height
      && ext.matchTemplate(screen, ConvertToGrayscaleWithAlpha(t)).maxValue.NonFinite?
    ensures var r := FindTemplateInternal(screen, templateBase64, scaleFactor, threshold, ext);
      !r.found && r.confidence.None? && r.errorCode == Some(NonFiniteConfidence)
  {
  }

  /** A template that passes every guard is classified on the correlator's
      finite maximum: found exactly at or above the threshold, the score
      reported either way, the center half a template from the maximum. */
  lemma ClassificationStage(screen: GrayImage, templateBase64: string, scaleFactor: real, threshold: real,
                            ext: Externals, img: RgbaImage, confidence: real)
    requires DecodeTemplateImage(templateBase64, ext) == Success(img)
    requires var t := ScaleAlign(img, scaleFactor, ext.lanczos3);
      && OpacityRatio(t) >= MIN_OPACITY_RATIO && t.width <= screen.width && t.height <= screen.height
      && ext.matchTemplate(screen, ConvertToGrayscaleWithAlpha(t)).maxValue == Finite(confidence)
    ensures var r := FindTemplateInternal(screen, templateBase64, scaleFactor, threshold, ext);
      var t := ScaleAlign(img, scaleFactor, ext.lanczos3);
      var m := ext.matchTemplate(screen, ConvertToGrayscaleWithAlpha(t));
      && r.error.None? && r.errorCode.None? && r.confidence == Some(confidence)
      && (r.found <==> confidence >= threshold)
      && (r.found ==> r.centerX == Some(m.maxX + t.width / 2) && r.centerY == Some(m.maxY + t.height / 2))
  {
  }

  /** Any score the matcher reports is either the 0.0 of an oversized
      template or the finite maximum the correlator produced. */
  lemma ReportedConfidenceIsFinite(screen: GrayImage, templateBase64: string, scaleFactor: real, threshold: real,
                                   ext: Externals)
    ensures var r := FindTemplateInternal(screen, templateBase64, scaleFactor, threshold, ext);
      r.confidence.Some? ==>
        || (r.errorCode == Some(TemplateTooLarge) && r.confidence.value == 0.0)
        || (&& r.errorCode.None? && DecodeTemplateImage(templateBase64, ext).Success?
            && var t := ScaleAlign(DecodeTemplateImage(templateBase64, ext).value, scaleFactor, ext.lanczos3);
               ext.matchTemplate(screen, ConvertToGrayscaleWithAlpha(t)).maxValue == Finite(r.confidence.value))
  {
  }

  /** With a correlator that never scores above 1.0, a threshold above 1.0
      never finds anything. */
  lemma ThresholdAboveOneFindsNothing(screen: GrayImage, templateBase64: string, scaleFactor: real, threshold: real,
                                      ext: Externals)
    requires threshold > 1.0
    requires forall a: GrayImage, b: GrayImage :: ext.matchTemplate(a, b).maxValue.Finite? ==>
      ext.matchTemplate(a, b).maxValue.value <= 1.0
    ensures !FindTemplateInternal(screen, templateBase64, scaleFactor, threshold, ext).found
  {
  }

  // ---------------------------------------------------------------------
  // Screenshot handling and the batch
  // ---------------------------------------------------------------------

  /** The screenshot's grey version (`to_luma8`), converted once. */
  function ScreenshotGray(img: RgbaImage, ext: Externals): (gray: GrayImage)
    ensures gray.width == img.width && gray.height == img.height
  {
    MapToGray(img, ext.screenshotLuma)
  }

  /** `find_template_in_screenshot`: decode the screenshot, then match one
      template against it. */
  function FindTemplateInScreenshot(screenshotBase64: string, templateBase64: string, scaleFactor: real,
                                    threshold: real, ext: Externals): (r: MatchResult)
    ensures r.Consistent()
    ensures r.errorCode == Some(ScreenshotDecodeError) <==> DecodeBase64Image(screenshotBase64, ext).Failure?
    ensures r.errorCode == Some(ScreenshotDecodeError) ==>
      !r.found && r.confidence.None? && r.templateWidth == 0 && r.templateHeight == 0
  {
    match DecodeBase64Image(screenshotBase64, ext)
    case Failure(e) =>
      MatchResult(false, None, None, None, 0, 0, Some(Error.ToString(e)), Some(ScreenshotDecodeError))
    case Success(img) =>
      FindTemplateWithDecodedScreenshot(ScreenshotGray(img, ext), templateBase64, scaleFactor, threshold, ext)
  }

  /** The result every slot gets when the screenshot cannot be decoded. */
  function ScreenshotFailureResult(e: Error.XenotesterError): (r: MatchResult)
    ensures r.Consistent() && !r.found && r.errorCode == Some(ScreenshotDecodeError)
    ensures r.templateWidth == 0 && r.templateHeight == 0 && r.confidence.None?
  {
    MatchResult(false, None, None, None, 0, 0,
                Some("Screenshot decode error: " + Error.Display(e)), Some(ScreenshotDecodeError))
  }

  /** `match_templates_batch`: the screenshot is decoded once; each
      (base64, file name) template is matched on its own, and the output
      keeps the templates' order and names. */
  function MatchTemplatesBatch(screenshotBase64: string, templates: seq<(string, string)>, scaleFactor: real,
                               threshold: real, ext: Externals): (out: seq<(string, MatchResult)>)
    ensures |out| == |templates|
    ensures forall i :: 0 <= i < |out| ==> out[i].0 == templates[i].1 && out[i].1.Consistent()
  {
    match DecodeBase64Image(screenshotBase64, ext)
    case Failure(e) =>
      var failed := ScreenshotFailureResult(e);
      seq(|templates|, i requires 0 <= i < |templates| => (templates[i].1, failed))
    case Success(img) =>
      var gray := ScreenshotGray(img, ext);
      seq(|templates|, i requires 0 <= i < |templates| =>
        (templates[i].1, FindTemplateWithDecodedScreenshot(gray, templates[i].0, scaleFactor, threshold, ext)))
  }

  /** A screenshot that does not decode gives every slot the same
      screenshot error with 0x0 dimensions. */
  lemma BatchScreenshotFailure(screenshotBase64: string, templates: seq<(string, string)>, scaleFactor: real,
                               threshold: real, ext: Externals)
    requires DecodeBase64Image(screenshotBase64, ext).Failure?
    ensures var out := MatchTemplatesBatch(screenshotBase64, templates, scaleFactor, threshold, ext);
      forall i, j :: 0 <= i < |out| && 0 <= j < |out| ==>
        && out[i].1 == out[j].1
        && out[i].1.errorCode == Some(ScreenshotDecodeError) && !out[i].1.found
        && out[i].1.templateWidth == 0 && out[i].1.templateHeight == 0
  {
  }

  /** With a decodable screenshot, slot i holds exactly what the single
      template matcher reports for template i; on a screenshot failure the
      two agree on everything but the batch's extra message prefix. */
  lemma BatchAgreesWithSingle(screenshotBase64: string, templates: seq<(string, string)>, scaleFactor: real,
                              threshold: real, ext: Externals, i: nat)
    requires i < |templates|
    ensures var out := MatchTemplatesBatch(screenshotBase64, templates, scaleFactor, threshold, ext);
      var single := FindTemplateInScreenshot(screenshotBase64, templates[i].0, scaleFactor, threshold, ext);
      && out[i].1.(error := None) == single.(error := None)
      && (DecodeBase64Image(screenshotBase64, ext).Success? ==> out[i].1 == single)
      && (DecodeBase64Image(screenshotBase64, ext).Failure? ==>
            out[i].1.error == Some("Screenshot decode error: " + single.error.value))
  {
  }

  /** No cross-talk: a template's slot depends on that template alone, so
      a batch is the concatenation of the batches of its parts. */
  lemma {:induction false} BatchSplits(screenshotBase64: string, first: seq<(string, string)>,
                                       second: seq<(string, string)>, scaleFactor: real, threshold: real,
                                       ext: Externals)
    ensures MatchTemplatesBatch(screenshotBase64, first + second, scaleFactor, threshold, ext)
         == MatchTemplatesBatch(screenshotBase64, first, scaleFactor, threshold, ext)
          + MatchTemplatesBatch(screenshotBase64, second, scaleFactor, threshold, ext)
  {
    var whole := MatchTemplatesBatch(screenshotBase64, first + second, scaleFactor, threshold, ext);
    var left := MatchTemplatesBatch(screenshotBase64, first, scaleFactor, threshold, ext);
    var right := MatchTemplatesBatch(screenshotBase64, second, scaleFactor, threshold, ext);
    assert forall i :: 0 <= i < |whole| ==> whole[i] == (left + right)[i] by {
      forall i | 0 <= i < |whole|
        ensures whole[i] == (left + right)[i]
      {
        if i < |first| {
          assert (first + second)[i] == first[i];
        } else {
          assert (first + second)[i] == second[i - |first|];
        }
      }
    }
  }
}
