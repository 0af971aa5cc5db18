/**
 * The chain of stages run by the process button on an image already read
 * from the canvas: the process-step selector `proc` stops after the blur
 * (`"gaussian"`), after the Sobel stage (`"sobel"`) or after suppression
 * (`"nonmax"`); any other value runs all four stages.  The blur is always
 * run with its default `grayscale = true`.
 */
module Canny {
  import opened Raster
  import opened Kernel
  import opened Blur
  import opened Sobel
  import opened NonMax
  import opened Threshold

  /** The last stage run. */
  datatype Step = Blurred | Gradient | Thinned | Edges

  /** The stage `proc` selects. */
  function StepOf(proc: string): (step: Step)
    ensures step == Edges <==> proc != "gaussian" && proc != "sobel" && proc != "nonmax"
  {
    if proc == "gaussian" then Blurred
    else if proc == "sobel" then Gradient
    else if proc == "nonmax" then Thinned
    else Edges
  }

  /** `o` is what the stages up to `step` make of `s`, the intermediate images being those the stages produce. */
  ghost predicate Pipeline(o: seq<byte>, s: seq<byte>, w: nat, h: nat, conv: seq<seq<real>>, step: Step,
                           high: real, low: real, sqrt: real -> real, atan2: (real, real) -> real)
    requires |s| == 4 * w * h && Square(conv)
  {
    match step
    case Blurred => IsBlurring(o, s, w, h, conv, true)
    case Gradient => exists g, a :: IsBlurring(g, s, w, h, conv, true) && IsSobel(o, a, g, w, h, sqrt, atan2)
    case Thinned =>
      exists g, m, a ::
        IsBlurring(g, s, w, h, conv, true) && IsSobel(m, a, g, w, h, sqrt, atan2)
        && IsSuppression(o, m, w, h, a)
    case Edges =>
      exists g, m, a, n ::
        IsBlurring(g, s, w, h, conv, true) && IsSobel(m, a, g, w, h, sqrt, atan2)
        && IsSuppression(n, m, w, h, a) && IsThresholding(o, n, w, h, high, low)
  }

  /** The process button's stage selection on image `data` with kernel `conv`. */
  method Process(data: ImageData, conv: seq<seq<real>>, proc: string, highThresh: real, lowThresh: real,
                 sqrt: real -> real, atan2: (real, real) -> real) returns (outData: ImageData)
    requires data.Valid() && Square(conv)
    ensures fresh(outData) && outData.Valid()
    ensures outData.width == data.width && outData.height == data.height
    ensures Pipeline(outData.data[..], data.data[..], data.width, data.height, conv, StepOf(proc),
                     highThresh, lowThresh, sqrt, atan2)
  {
    var w, h := data.width, data.height;
    if proc == "gaussian" {
      outData := GaussianBlur(data, conv);
    } else if proc == "sobel" {
      var gaussData := GaussianBlur(data, conv);
      var angles;
      outData, angles := SobelFilter(gaussData, sqrt, atan2);
      assert IsBlurring(gaussData.data[..], data.data[..], w, h, conv, true);
    } else if proc == "nonmax" {
      var gaussData := GaussianBlur(data, conv);
      var sobelData, gradientAngles := SobelFilter(gaussData, sqrt, atan2);
      outData := NonMaxSuppression(sobelData, gradientAngles);
      assert IsSobel(sobelData.data[..], gradientAngles[..], gaussData.data[..], w, h, sqrt, atan2);
    } else {
      var gaussData := GaussianBlur(data, conv);
      var sobelData, gradientAngles := SobelFilter(gaussData, sqrt, atan2);
      var nonMaxData := NonMaxSuppression(sobelData, gradientAngles);
      outData := DoubleThreshold(nonMaxData, highThresh, lowThresh);
      assert IsSuppression(nonMaxData.data[..], sobelData.data[..], w, h, gradientAngles[..]);
    }
  }

  /** Every pixel of the raster equals `p`. */
  predicate AllPixels(s: seq<byte>, w: nat, h: nat, p: Rgba)
    requires |s| == 4 * w * h
  {
    forall x, y :: 0 <= x < w && 0 <= y < h ==> PixelAt(s, w, h, x, y) == p
  }

  /** The blur of a single-coloured image is a single grey: the integer mean of its colour channels. */
  lemma BlurOfUniform(g: seq<byte>, s: seq<byte>, w: nat, h: nat, conv: seq<seq<real>>, p: Rgba)
    requires |s| == 4 * w * h && w >= 1 && h >= 1 && Square(conv) && Total(conv) == 1.0
    requires AllPixels(s, w, h, p) && IsBlurring(g, s, w, h, conv, true)
    ensures var m := (p.r + p.g + p.b) / 3;
      AllPixels(g, w, h, Rgba(m, m, m, 255))
  {
    forall x, y | 0 <= x < w && 0 <= y < h
      ensures Channel(s, w, h, x, y, 0) == p.r && Channel(s, w, h, x, y, 1) == p.g && Channel(s, w, h, x, y, 2) == p.b
    {
      assert PixelAt(s, w, h, x, y) == p;
    }
    assert UniformChannel(s, w, h, 0, p.r) && UniformChannel(s, w, h, 1, p.g) && UniformChannel(s, w, h, 2, p.b);
    forall x, y | 0 <= x < w && 0 <= y < h
      ensures PixelAt(g, w, h, x, y) == Rgba((p.r + p.g + p.b) / 3, (p.r + p.g + p.b) / 3, (p.r + p.g + p.b) / 3, 255)
    {
      BlurKeepsUniform(s, w, h, conv, x, y, p.r, p.g, p.b);
    }
  }

  /** The Sobel stage turns a single-coloured image black, given `sqrt(0) == 0`. */
  lemma SobelOfUniform(m: seq<byte>, a: seq<byte>, g: seq<byte>, w: nat, h: nat, q: Rgba,
                       sqrt: real -> real, atan2: (real, real) -> real)
    requires |g| == 4 * w * h && w >= 1 && h >= 1 && sqrt(0.0) == 0.0
    requires AllPixels(g, w, h, q) && IsSobel(m, a, g, w, h, sqrt, atan2)
    ensures AllPixels(m, w, h, BLACK)
  {
    assert UniformDensity(g, w, h) by {
      forall x, y | 0 <= x < w && 0 <= y < h
        ensures Red(g, w, h, x, y) == Red(g, w, h, 0, 0)
      {
        assert PixelAt(g, w, h, x, y) == PixelAt(g, w, h, 0, 0);
      }
    }
    forall x, y | 0 <= x < w && 0 <= y < h
      ensures PixelAt(m, w, h, x, y) == BLACK
    {
      UniformIsFlat(g, w, h, x, y);
      FlatHasNoGradient(g, w, h, x, y);
    }
  }

  /** Suppression of an all-black image is all black, whatever the angles. */
  lemma SuppressionOfBlack(n: seq<byte>, m: seq<byte>, w: nat, h: nat, a: seq<byte>)
    requires |m| == 4 * w * h && |a| == w * h && AllPixels(m, w, h, BLACK) && IsSuppression(n, m, w, h, a)
    ensures AllPixels(n, w, h, BLACK)
  {
    forall x, y | 0 <= x < w && 0 <= y < h
      ensures PixelAt(n, w, h, x, y) == BLACK
    {
      assert PixelAt(m, w, h, x, y) == BLACK;
    }
  }

  /** Thresholding of an all-black image is all black, whatever the thresholds. */
  lemma ThresholdingOfBlack(o: seq<byte>, n: seq<byte>, w: nat, h: nat, high: real, low: real)
    requires |n| == 4 * w * h && AllPixels(n, w, h, BLACK) && IsThresholding(o, n, w, h, high, low)
    ensures AllPixels(o, w, h, BLACK)
  {
    forall x, y | 0 <= x < w && 0 <= y < h
      ensures PixelAt(o, w, h, x, y) == BLACK
    {
      assert PixelAt(n, w, h, x, y) == BLACK;
    }
  }

  /**
   * A single-coloured image has no edges: with a kernel summing to one (as
   * every Gaussian kernel does) and `sqrt(0) == 0`, the blur alone gives a
   * single grey and every longer chain gives an all-black image.
   */
  lemma UniformImageHasNoEdges(o: seq<byte>, s: seq<byte>, w: nat, h: nat, conv: seq<seq<real>>, step: Step,
                               high: real, low: real, sqrt: real -> real, atan2: (real, real) -> real, p: Rgba)
    requires |s| == 4 * w * h && w >= 1 && h >= 1 && Square(conv) && Total(conv) == 1.0 && sqrt(0.0) == 0.0
    requires AllPixels(s, w, h, p) && Pipeline(o, s, w, h, conv, step, high, low, sqrt, atan2)
    ensures var m := (p.r + p.g + p.b) / 3;
      step == Blurred ==> AllPixels(o, w, h, Rgba(m, m, m, 255))
    ensures step != Blurred ==> AllPixels(o, w, h, BLACK)
  {
    var grey := (p.r + p.g + p.b) / 3;
    match step
    case Blurred =>
      BlurOfUniform(o, s, w, h, conv, p);
    case Gradient =>
      var g, a :| IsBlurring(g, s, w, h, conv, true) && IsSobel(o, a, g, w, h, sqrt, atan2);
      BlurOfUniform(g, s, w, h, conv, p);
      SobelOfUniform(o, a, g, w, h, Rgba(grey, grey, grey, 255), sqrt, atan2);
    case Thinned =>
      var g, m, a :| IsBlurring(g, s, w, h, conv, true) && IsSobel(m, a, g, w, h, sqrt, atan2)
        && IsSuppression(o, m, w, h, a);
      BlurOfUniform(g, s, w, h, conv, p);
      SobelOfUniform(m, a, g, w, h, Rgba(grey, grey, grey, 255), sqrt, atan2);
      SuppressionOfBlack(o, m, w, h, a);
    case Edges =>
      var g, m, a, n :| IsBlurring(g, s, w, h, conv, true) && IsSobel(m, a, g, w, h, sqrt, atan2)
        && IsSuppression(n, m, w, h, a) && IsThresholding(o, n, w, h, high, low);
      BlurOfUniform(g, s, w, h, conv, p);
      SobelOfUniform(m, a, g, w, h, Rgba(grey, grey, grey, 255), sqrt, atan2);
      SuppressionOfBlack(n, m, w, h, a);
      ThresholdingOfBlack(o, n, w, h, high, low);
  }
}
