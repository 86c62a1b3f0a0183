/**
 The scale transform that `Resizer.resizeFrame` hands to the bilinear scaler.

 The source computes four `Double`s (scaleX, scaleY, translateX, translateY)
 from the source size, the target size and a `PixelResizeMode`. Here they are
 exact reals, so every ratio is the rational `target / source` and the
 geometry of the three modes can be stated without rounding. The scaler maps
 a source pixel (x, y) to the destination point
 (x * scaleX + translateX, y * scaleY + translateY).
 */
module ResizeTransform {

  /** A width or height in pixels: every pixel buffer and every requested target size is positive. */
  type Dim = n: int | n > 0 witness 1

  /*
   Raw values of `PixelResizeMode`. The enumeration is exported to Objective-C,
   so a caller can hand over any integer; only these three are recognised.
   */
  const ScaleToFill: int := 1
  const ScaleAspectFit: int := 2
  const ScaleAspectFill: int := 3

  predicate IsRecognisedMode(resizeMode: int) {
    resizeMode == ScaleToFill || resizeMode == ScaleAspectFit || resizeMode == ScaleAspectFill
  }

  /** The four scalars of `MPSScaleTransform`. */
  datatype ScaleTransform = ScaleTransform(scaleX: real, scaleY: real, translateX: real, translateY: real)

  /** The transform left behind when no mode branch is taken: the four scalars keep their initial 0. */
  const Degenerate: ScaleTransform := ScaleTransform(0.0, 0.0, 0.0, 0.0)

  /** The transform that leaves every pixel where it is. */
  const Identity: ScaleTransform := ScaleTransform(1.0, 1.0, 0.0, 0.0)

  /** The factor that takes a source extent onto a target extent. */
  function Ratio(target: Dim, source: Dim): (r: real)
    ensures r > 0.0
    ensures source as real * r == target as real
  {
    target as real / source as real
  }

  /**
   The transform `resizeFrame` builds. Stretch scales each axis by its own
   ratio; aspect-fit scales both axes by the ratio of the axis that would
   overflow first and centres on the other axis; aspect-fill scales both axes
   by the ratio of the axis that would fall short first and centres (crops) on
   the other. Any other raw mode leaves the zero initialisers in place.
   */
  function ComputeTransform(sourceWidth: Dim, sourceHeight: Dim, targetWidth: Dim, targetHeight: Dim, resizeMode: int): (t: ScaleTransform)
    ensures t.scaleX >= 0.0 && t.scaleY >= 0.0
    ensures t.translateX == 0.0 || t.translateY == 0.0
  {
    var widthRatio := Ratio(targetWidth, sourceWidth);
    var heightRatio := Ratio(targetHeight, sourceHeight);
    if resizeMode == ScaleToFill then
      ScaleTransform(widthRatio, heightRatio, 0.0, 0.0)
    else if resizeMode == ScaleAspectFit then
      if heightRatio > widthRatio then
        var scale := widthRatio;
        var currentHeight := sourceHeight as real * scale;
        ScaleTransform(scale, scale, 0.0, (targetHeight as real - currentHeight) * 0.5)
      else
        var scale := heightRatio;
        var currentWidth := sourceWidth as real * scale;
        ScaleTransform(scale, scale, (targetWidth as real - currentWidth) * 0.5, 0.0)
    else if resizeMode == ScaleAspectFill then
      if heightRatio > widthRatio then
        var scale := heightRatio;
        var currentWidth := sourceWidth as real * scale;
        ScaleTransform(scale, scale, (targetWidth as real - currentWidth) * 0.5, 0.0)
      else
        var scale := widthRatio;
        var currentHeight := sourceHeight as real * scale;
        ScaleTransform(scale, scale, 0.0, (targetHeight as real - currentHeight) * 0.5)
    else
      Degenerate
  }

  // ---------------------------------------------------------------------------
  // The geometry the modes are meant to produce, stated on the destination
  // rectangle [0, targetWidth] x [0, targetHeight] and on the placed content
  // [translateX, translateX + sourceWidth * scaleX] x [translateY, translateY + sourceHeight * scaleY].
  // ---------------------------------------------------------------------------

  /** Width of the source once scaled. */
  function ContentWidth(t: ScaleTransform, sourceWidth: Dim): real {
    sourceWidth as real * t.scaleX
  }

  /** Height of the source once scaled. */
  function ContentHeight(t: ScaleTransform, sourceHeight: Dim): real {
    sourceHeight as real * t.scaleY
  }

  /** Both axes are scaled by the same factor, so the aspect ratio is kept. */
  predicate Uniform(t: ScaleTransform) {
    t.scaleX == t.scaleY
  }

  /** The placed content lies inside the destination: nothing is cropped. */
  predicate InsideTarget(t: ScaleTransform, sourceWidth: Dim, sourceHeight: Dim, targetWidth: Dim, targetHeight: Dim) {
    && 0.0 <= t.translateX && t.translateX + ContentWidth(t, sourceWidth) <= targetWidth as real
    && 0.0 <= t.translateY && t.translateY + ContentHeight(t, sourceHeight) <= targetHeight as real
  }

  /** The placed content covers the whole destination: no destination pixel is left unpainted. */
  predicate CoversTarget(t: ScaleTransform, sourceWidth: Dim, sourceHeight: Dim, targetWidth: Dim, targetHeight: Dim) {
    && t.translateX <= 0.0 && targetWidth as real <= t.translateX + ContentWidth(t, sourceWidth)
    && t.translateY <= 0.0 && targetHeight as real <= t.translateY + ContentHeight(t, sourceHeight)
  }

  /** The placed content has the same centre as the destination on both axes. */
  predicate Centred(t: ScaleTransform, sourceWidth: Dim, sourceHeight: Dim, targetWidth: Dim, targetHeight: Dim) {
    && 2.0 * t.translateX + ContentWidth(t, sourceWidth) == targetWidth as real
    && 2.0 * t.translateY + ContentHeight(t, sourceHeight) == targetHeight as real
  }

  /** On at least one axis the scaled content is exactly as long as the destination. */
  predicate TouchesOneAxis(t: ScaleTransform, sourceWidth: Dim, sourceHeight: Dim, targetWidth: Dim, targetHeight: Dim) {
    ContentWidth(t, sourceWidth) == targetWidth as real || ContentHeight(t, sourceHeight) == targetHeight as real
  }

  function Min(a: real, b: real): real { if a <= b then a else b }

  function Max(a: real, b: real): real { if a >= b then a else b }

  // ---------------------------------------------------------------------------
  // Stretch
  // ---------------------------------------------------------------------------

  /** scaleToFill stretches each axis by its own ratio, does not translate, and fills the destination exactly. */
  lemma StretchFillsExactly(sourceWidth: Dim, sourceHeight: Dim, targetWidth: Dim, targetHeight: Dim)
    ensures var t := ComputeTransform(sourceWidth, sourceHeight, targetWidth, targetHeight, ScaleToFill);
      && t.scaleX == Ratio(targetWidth, sourceWidth)
      && t.scaleY == Ratio(targetHeight, sourceHeight)
      && t.translateX == 0.0 && t.translateY == 0.0
      && ContentWidth(t, sourceWidth) == targetWidth as real
      && ContentHeight(t, sourceHeight) == targetHeight as real
      && InsideTarget(t, sourceWidth, sourceHeight, targetWidth, targetHeight)
      && CoversTarget(t, sourceWidth, sourceHeight, targetWidth, targetHeight)
      && Centred(t, sourceWidth, sourceHeight, targetWidth, targetHeight)
  {
  }

  /** Stretch keeps the aspect ratio exactly when the two axis ratios agree. */
  lemma StretchUniformIffEqualRatios(sourceWidth: Dim, sourceHeight: Dim, targetWidth: Dim, targetHeight: Dim)
    ensures Uniform(ComputeTransform(sourceWidth, sourceHeight, targetWidth, targetHeight, ScaleToFill))
        <==> Ratio(targetWidth, sourceWidth) == Ratio(targetHeight, sourceHeight)
  {
  }

  // ---------------------------------------------------------------------------
  // Aspect-fit
  // ---------------------------------------------------------------------------

  /**
   scaleAspectFit scales both axes by the smaller ratio, keeps the content
   inside the destination, centres it, fills one axis exactly, and leaves bars
   (a non-zero translation) only when the two ratios differ.
   */
  lemma AspectFitPlacement(sourceWidth: Dim, sourceHeight: Dim, targetWidth: Dim, targetHeight: Dim)
    ensures var t := ComputeTransform(sourceWidth, sourceHeight, targetWidth, targetHeight, ScaleAspectFit);
      var widthRatio, heightRatio := Ratio(targetWidth, sourceWidth), Ratio(targetHeight, sourceHeight);
      && Uniform(t)
      && t.scaleX == Min(widthRatio, heightRatio)
      && InsideTarget(t, sourceWidth, sourceHeight, targetWidth, targetHeight)
      && Centred(t, sourceWidth, sourceHeight, targetWidth, targetHeight)
      && TouchesOneAxis(t, sourceWidth, sourceHeight, targetWidth, targetHeight)
      && (heightRatio > widthRatio ==> t.translateX == 0.0 && t.translateY == (targetHeight as real - ContentHeight(t, sourceHeight)) / 2.0)
      && (heightRatio <= widthRatio ==> t.translateY == 0.0 && t.translateX == (targetWidth as real - ContentWidth(t, sourceWidth)) / 2.0)
      && (t.translateX == 0.0 && t.translateY == 0.0 <==> widthRatio == heightRatio)
  {
  }

  /** No uniform scale larger than aspect-fit's keeps the whole source inside the destination. */
  lemma AspectFitIsLargestFit(sourceWidth: Dim, sourceHeight: Dim, targetWidth: Dim, targetHeight: Dim, s: real)
    requires sourceWidth as real * s <= targetWidth as real
    requires sourceHeight as real * s <= targetHeight as real
    ensures s <= ComputeTransform(sourceWidth, sourceHeight, targetWidth, targetHeight, ScaleAspectFit).scaleX
  {
  }

  /**
   Aspect-fit's transform is the only uniform, centred transform that keeps
   the source inside the destination while filling one axis.
   */
  lemma AspectFitIsUnique(sourceWidth: Dim, sourceHeight: Dim, targetWidth: Dim, targetHeight: Dim, t: ScaleTransform)
    requires Uniform(t)
    requires Centred(t, sourceWidth, sourceHeight, targetWidth, targetHeight)
    requires InsideTarget(t, sourceWidth, sourceHeight, targetWidth, targetHeight)
    requires TouchesOneAxis(t, sourceWidth, sourceHeight, targetWidth, targetHeight)
    ensures t == ComputeTransform(sourceWidth, sourceHeight, targetWidth, targetHeight, ScaleAspectFit)
  {
  }

  // ---------------------------------------------------------------------------
  // Aspect-fill
  // ---------------------------------------------------------------------------

  /**
   scaleAspectFill scales both axes by the larger ratio, covers the whole
   destination, centres the content, fills one axis exactly, and crops (a
   negative translation) only when the two ratios differ.
   */
  lemma AspectFillPlacement(sourceWidth: Dim, sourceHeight: Dim, targetWidth: Dim, targetHeight: Dim)
    ensures var t := ComputeTransform(sourceWidth, sourceHeight, targetWidth, targetHeight, ScaleAspectFill);
      var widthRatio, heightRatio := Ratio(targetWidth, sourceWidth), Ratio(targetHeight, sourceHeight);
      && Uniform(t)
      && t.scaleX == Max(widthRatio, heightRatio)
      && CoversTarget(t, sourceWidth, sourceHeight, targetWidth, targetHeight)
      && Centred(t, sourceWidth, sourceHeight, targetWidth, targetHeight)
      && TouchesOneAxis(t, sourceWidth, sourceHeight, targetWidth, targetHeight)
      && (heightRatio > widthRatio ==> t.translateY == 0.0 && t.translateX == (targetWidth as real - ContentWidth(t, sourceWidth)) / 2.0)
      && (heightRatio <= widthRatio ==> t.translateX == 0.0 && t.translateY == (targetHeight as real - ContentHeight(t, sourceHeight)) / 2.0)
      && (t.translateX == 0.0 && t.translateY == 0.0 <==> widthRatio == heightRatio)
  {
  }

  /** No uniform scale smaller than aspect-fill's covers the whole destination. */
  lemma AspectFillIsSmallestCover(sourceWidth: Dim, sourceHeight: Dim, targetWidth: Dim, targetHeight: Dim, s: real)
    requires targetWidth as real <= sourceWidth as real * s
    requires targetHeight as real <= sourceHeight as real * s
    ensures ComputeTransform(sourceWidth, sourceHeight, targetWidth, targetHeight, ScaleAspectFill).scaleX <= s
  {
  }

  /**
   Aspect-fill's transform is the only uniform, centred transform that covers
   the destination while matching it exactly on one axis.
   */
  lemma AspectFillIsUnique(sourceWidth: Dim, sourceHeight: Dim, targetWidth: Dim, targetHeight: Dim, t: ScaleTransform)
    requires Uniform(t)
    requires Centred(t, sourceWidth, sourceHeight, targetWidth, targetHeight)
    requires CoversTarget(t, sourceWidth, sourceHeight, targetWidth, targetHeight)
    requires TouchesOneAxis(t, sourceWidth, sourceHeight, targetWidth, targetHeight)
    ensures t == ComputeTransform(sourceWidth, sourceHeight, targetWidth, targetHeight, ScaleAspectFill)
  {
  }

  // ---------------------------------------------------------------------------
  // All modes
  // ---------------------------------------------------------------------------

  /** When both axes need the same ratio, the three modes agree: that ratio on both axes and no translation. */
  lemma EqualRatiosAgree(sourceWidth: Dim, sourceHeight: Dim, targetWidth: Dim, targetHeight: Dim)
    requires Ratio(targetWidth, sourceWidth) == Ratio(targetHeight, sourceHeight)
    ensures var r := Ratio(targetWidth, sourceWidth);
      && ComputeTransform(sourceWidth, sourceHeight, targetWidth, targetHeight, ScaleToFill) == ScaleTransform(r, r, 0.0, 0.0)
      && ComputeTransform(sourceWidth, sourceHeight, targetWidth, targetHeight, ScaleAspectFit) == ScaleTransform(r, r, 0.0, 0.0)
      && ComputeTransform(sourceWidth, sourceHeight, targetWidth, targetHeight, ScaleAspectFill) == ScaleTransform(r, r, 0.0, 0.0)
  {
  }

  /** Resizing to the source's own size is the identity under every recognised mode. */
  lemma SameSizeIsIdentity(width: Dim, height: Dim, resizeMode: int)
    requires IsRecognisedMode(resizeMode)
    ensures ComputeTransform(width, height, width, height, resizeMode) == Identity
  {
  }

  /** A recognised mode yields strictly positive scales; any other raw value yields the all-zero transform, and only it does. */
  lemma ScalesPositiveIffRecognised(sourceWidth: Dim, sourceHeight: Dim, targetWidth: Dim, targetHeight: Dim, resizeMode: int)
    ensures var t := ComputeTransform(sourceWidth, sourceHeight, targetWidth, targetHeight, resizeMode);
      && (IsRecognisedMode(resizeMode) <==> t.scaleX > 0.0 && t.scaleY > 0.0)
      && (!IsRecognisedMode(resizeMode) <==> t == Degenerate)
  {
  }

  /** Where the scaled source lands in the destination: its origin and its extent. */
  datatype Placement = Placement(x: real, y: real, width: real, height: real)

  function PlacementOf(t: ScaleTransform, sourceWidth: Dim, sourceHeight: Dim): Placement {
    Placement(t.translateX, t.translateY, ContentWidth(t, sourceWidth), ContentHeight(t, sourceHeight))
  }

  /**
   Two sources with the same aspect ratio land on the same destination
   rectangle under every mode: the placement does not depend on the source's
   resolution.
   */
  lemma PlacementDependsOnlyOnAspect(sourceWidth: Dim, sourceHeight: Dim, otherWidth: Dim, otherHeight: Dim,
                                     targetWidth: Dim, targetHeight: Dim, resizeMode: int)
    requires sourceWidth * otherHeight == otherWidth * sourceHeight
    ensures PlacementOf(ComputeTransform(sourceWidth, sourceHeight, targetWidth, targetHeight, resizeMode), sourceWidth, sourceHeight)
         == PlacementOf(ComputeTransform(otherWidth, otherHeight, targetWidth, targetHeight, resizeMode), otherWidth, otherHeight)
  {
    var k := EnlargementFactor(sourceWidth, sourceHeight, otherWidth, otherHeight);
    RatioOfEnlargedSource(targetWidth, sourceWidth, otherWidth, k);
    RatioOfEnlargedSource(targetHeight, sourceHeight, otherHeight, k);
    var widthRatio, heightRatio := Ratio(targetWidth, sourceWidth), Ratio(targetHeight, sourceHeight);
    var otherWidthRatio, otherHeightRatio := Ratio(targetWidth, otherWidth), Ratio(targetHeight, otherHeight);
    // Both sources take the same branch, and the slack extent is the same for both.
    SameOrder(widthRatio, heightRatio, otherWidthRatio, otherHeightRatio, k);
    var fittedHeight := SameScaledExtent(sourceHeight, otherHeight, widthRatio, otherWidthRatio, k);
    var fittedWidth := SameScaledExtent(sourceWidth, otherWidth, heightRatio, otherHeightRatio, k);
    if resizeMode == ScaleAspectFit || resizeMode == ScaleAspectFill {
      if (resizeMode == ScaleAspectFit) == (heightRatio > widthRatio) {
        // Both scale by their width ratio and centre vertically.
        ScaledByWidthRatio(sourceWidth, sourceHeight, targetWidth, targetHeight, resizeMode);
        ScaledByWidthRatio(otherWidth, otherHeight, targetWidth, targetHeight, resizeMode);
      } else {
        // Both scale by their height ratio and centre horizontally.
        ScaledByHeightRatio(sourceWidth, sourceHeight, targetWidth, targetHeight, resizeMode);
        ScaledByHeightRatio(otherWidth, otherHeight, targetWidth, targetHeight, resizeMode);
      }
    }
  }

  /** The aspect branch that scales by the width ratio fits the width exactly and centres the height. */
  lemma ScaledByWidthRatio(sourceWidth: Dim, sourceHeight: Dim, targetWidth: Dim, targetHeight: Dim, resizeMode: int)
    requires resizeMode == ScaleAspectFit || resizeMode == ScaleAspectFill
    requires (resizeMode == ScaleAspectFit) == (Ratio(targetHeight, sourceHeight) > Ratio(targetWidth, sourceWidth))
    ensures var fittedHeight := sourceHeight as real * Ratio(targetWidth, sourceWidth);
      PlacementOf(ComputeTransform(sourceWidth, sourceHeight, targetWidth, targetHeight, resizeMode), sourceWidth, sourceHeight)
      == Placement(0.0, (targetHeight as real - fittedHeight) * 0.5, targetWidth as real, fittedHeight)
  {
  }

  /** The aspect branch that scales by the height ratio fits the height exactly and centres the width. */
  lemma ScaledByHeightRatio(sourceWidth: Dim, sourceHeight: Dim, targetWidth: Dim, targetHeight: Dim, resizeMode: int)
    requires resizeMode == ScaleAspectFit || resizeMode == ScaleAspectFill
    requires (resizeMode == ScaleAspectFit) != (Ratio(targetHeight, sourceHeight) > Ratio(targetWidth, sourceWidth))
    ensures var fittedWidth := sourceWidth as real * Ratio(targetHeight, sourceHeight);
      PlacementOf(ComputeTransform(sourceWidth, sourceHeight, targetWidth, targetHeight, resizeMode), sourceWidth, sourceHeight)
      == Placement((targetWidth as real - fittedWidth) * 0.5, 0.0, fittedWidth, targetHeight as real)
  {
  }

  /** Two sources of the same aspect ratio differ by one positive factor on both axes. */
  lemma EnlargementFactor(sourceWidth: Dim, sourceHeight: Dim, otherWidth: Dim, otherHeight: Dim) returns (k: real)
    requires sourceWidth * otherHeight == otherWidth * sourceHeight
    ensures otherWidth as real == k * sourceWidth as real
    ensures otherHeight as real == k * sourceHeight as real
  {
    k := otherWidth as real / sourceWidth as real;
    assert sourceWidth as real * otherHeight as real == otherWidth as real * sourceHeight as real;
    assert sourceWidth as real * (otherHeight as real - k * sourceHeight as real) == 0.0;
  }

  /** Dividing two ratios by the same positive factor keeps their order. */
  lemma SameOrder(widthRatio: real, heightRatio: real, otherWidthRatio: real, otherHeightRatio: real, k: real)
    requires k > 0.0
    requires k * otherWidthRatio == widthRatio && k * otherHeightRatio == heightRatio
    ensures heightRatio > widthRatio <==> otherHeightRatio > otherWidthRatio
  {
    assert heightRatio - widthRatio == k * (otherHeightRatio - otherWidthRatio);
  }

  /** A source extent and its k-fold enlargement, scaled by ratios that differ by the factor k, have the same length. */
  lemma SameScaledExtent(source: Dim, enlarged: Dim, ratio: real, enlargedRatio: real, k: real) returns (extent: real)
    requires enlarged as real == k * source as real
    requires k * enlargedRatio == ratio
    ensures extent == source as real * ratio == enlarged as real * enlargedRatio
  {
    extent := source as real * ratio;
    assert enlarged as real * enlargedRatio == source as real * (k * enlargedRatio);
  }

  /** Enlarging the source by k divides its ratio to a fixed target by k. */
  lemma RatioOfEnlargedSource(target: Dim, source: Dim, enlarged: Dim, k: real)
    requires enlarged as real == k * source as real
    ensures k > 0.0
    ensures k * Ratio(target, enlarged) == Ratio(target, source)
  {
    var r := Ratio(target, enlarged);
    assert source as real * (k * r) == target as real;
  }

  // ---------------------------------------------------------------------------
  // The 1920x1080 -> 640x480 frame the demo resizes
  // ---------------------------------------------------------------------------

  /** Fitting 1920x1080 into 640x480: scale 1/3 on both axes, bars of 60 pixels above and below. */
  lemma FullHdToVgaAspectFit()
    ensures ComputeTransform(1920, 1080, 640, 480, ScaleAspectFit) == ScaleTransform(1.0 / 3.0, 1.0 / 3.0, 0.0, 60.0)
  {
  }

  /** Filling 640x480 from 1920x1080: scale 4/9 on both axes, 320/3 pixels cropped at the left and right. */
  lemma FullHdToVgaAspectFill()
    ensures ComputeTransform(1920, 1080, 640, 480, ScaleAspectFill) == ScaleTransform(4.0 / 9.0, 4.0 / 9.0, -320.0 / 3.0, 0.0)
  {
  }
}
