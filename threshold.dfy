/**
 * `doubleThreshold(imgData, highThreshold, lowThreshold = highThreshold)`:
 * hysteresis on the thinned edges.  A pixel whose density reaches the high
 * threshold is a strong edge and is kept; one that reaches only the low
 * threshold is a weak edge and is kept when some pixel of its clamped 3 by 3
 * neighbourhood (itself included) is strong; every other pixel becomes
 * opaque black.  Kept pixels keep their colour and become opaque.
 */
module Threshold {
  import opened Raster

  /** The density of cell `(ky, kx)` of the clamped 3 by 3 blob around `(x, y)`. */
  function Blob(s: seq<byte>, w: nat, h: nat, x: int, y: int, ky: int, kx: int): byte
    requires |s| == 4 * w * h && w >= 1 && h >= 1
  {
    Red(s, w, h, Clamp(x + kx - 1, w), Clamp(y + ky - 1, h))
  }

  /** `(x, y)` is a strong edge: its density reaches the high threshold. */
  predicate Strong(s: seq<byte>, w: nat, h: nat, high: real, x: int, y: int)
    requires |s| == 4 * w * h && 0 <= x < w && 0 <= y < h
  {
    Red(s, w, h, x, y) as real >= high
  }

  /** Some cell of the blob around `(x, y)` reaches the high threshold. */
  predicate HasStrongNeighbour(s: seq<byte>, w: nat, h: nat, high: real, x: int, y: int)
    requires |s| == 4 * w * h && w >= 1 && h >= 1
  {
    exists ky, kx :: 0 <= ky < 3 && 0 <= kx < 3 && Blob(s, w, h, x, y, ky, kx) as real >= high
  }

  /** The output pixel, branch for branch: strong, weak with or without a strong neighbour, below both. */
  function ThresholdPixel(s: seq<byte>, w: nat, h: nat, high: real, low: real, x: int, y: int): Rgba
    requires |s| == 4 * w * h && 0 <= x < w && 0 <= y < h
  {
    if Strong(s, w, h, high, x, y) then Opaque(s, w, h, x, y)
    else if Red(s, w, h, x, y) as real >= low then
      (if HasStrongNeighbour(s, w, h, high, x, y) then Opaque(s, w, h, x, y) else BLACK)
    else BLACK
  }

  /** `o` is, pixel for pixel, what thresholding makes of `s`. */
  predicate IsThresholding(o: seq<byte>, s: seq<byte>, w: nat, h: nat, high: real, low: real)
    requires |s| == 4 * w * h
  {
    |o| == 4 * w * h
    && forall x, y :: 0 <= x < w && 0 <= y < h ==> PixelAt(o, w, h, x, y) == ThresholdPixel(s, w, h, high, low, x, y)
  }

  /** A strong pixel is its own strong neighbour (the blob includes the centre). */
  lemma StrongHasStrongNeighbour(s: seq<byte>, w: nat, h: nat, high: real, x: int, y: int)
    requires |s| == 4 * w * h && 0 <= x < w && 0 <= y < h && Strong(s, w, h, high, x, y)
    ensures HasStrongNeighbour(s, w, h, high, x, y)
  {
    assert Blob(s, w, h, x, y, 1, 1) == Red(s, w, h, x, y);
  }

  /**
   * With `low <= high` a pixel is kept exactly when it reaches the low
   * threshold and its blob holds a strong pixel; otherwise it is black.
   */
  lemma KeptIffWeakNearStrong(s: seq<byte>, w: nat, h: nat, high: real, low: real, x: int, y: int)
    requires |s| == 4 * w * h && 0 <= x < w && 0 <= y < h && low <= high
    ensures ThresholdPixel(s, w, h, high, low, x, y)
      == if Red(s, w, h, x, y) as real >= low && HasStrongNeighbour(s, w, h, high, x, y)
         then Opaque(s, w, h, x, y) else BLACK
  {
    if Strong(s, w, h, high, x, y) {
      StrongHasStrongNeighbour(s, w, h, high, x, y);
    }
  }

  /** With the default `lowThreshold = highThreshold`, hysteresis is a plain threshold. */
  lemma SingleThreshold(s: seq<byte>, w: nat, h: nat, high: real, x: int, y: int)
    requires |s| == 4 * w * h && 0 <= x < w && 0 <= y < h
    ensures ThresholdPixel(s, w, h, high, high, x, y)
      == if Red(s, w, h, x, y) as real >= high then Opaque(s, w, h, x, y) else BLACK
  {
  }

  /** Thresholding never raises a colour channel and always makes the pixel opaque. */
  lemma NeverBrightens(s: seq<byte>, w: nat, h: nat, high: real, low: real, x: int, y: int)
    requires |s| == 4 * w * h && 0 <= x < w && 0 <= y < h
    ensures ThresholdPixel(s, w, h, high, low, x, y).r <= Red(s, w, h, x, y)
    ensures ThresholdPixel(s, w, h, high, low, x, y).g <= PixelAt(s, w, h, x, y).g
    ensures ThresholdPixel(s, w, h, high, low, x, y).b <= PixelAt(s, w, h, x, y).b
    ensures ThresholdPixel(s, w, h, high, low, x, y).a == 255
  {
  }

  /** Lowering either threshold keeps every pixel that was kept. */
  lemma Monotone(s: seq<byte>, w: nat, h: nat, high1: real, low1: real, high2: real, low2: real, x: int, y: int)
    requires |s| == 4 * w * h && 0 <= x < w && 0 <= y < h
    requires high1 <= high2 && low1 <= low2
    requires ThresholdPixel(s, w, h, high2, low2, x, y) != BLACK
    ensures ThresholdPixel(s, w, h, high1, low1, x, y) == ThresholdPixel(s, w, h, high2, low2, x, y)
  {
    if !Strong(s, w, h, high2, x, y) && HasStrongNeighbour(s, w, h, high2, x, y) {
      var ky, kx :| 0 <= ky < 3 && 0 <= kx < 3 && Blob(s, w, h, x, y, ky, kx) as real >= high2;
      assert Blob(s, w, h, x, y, ky, kx) as real >= high1;
    }
  }

  /** One pixel of `Idempotent`. */
  lemma IdempotentAt(o: seq<byte>, s: seq<byte>, w: nat, h: nat, high: real, low: real, x: int, y: int)
    requires |s| == 4 * w * h && IsThresholding(o, s, w, h, high, low)
    requires 0 <= x < w && 0 <= y < h
    ensures PixelAt(o, w, h, x, y) == ThresholdPixel(o, w, h, high, low, x, y)
  {
    assert PixelAt(o, w, h, x, y) == ThresholdPixel(s, w, h, high, low, x, y);
    if !Strong(s, w, h, high, x, y) && Red(s, w, h, x, y) as real >= low && HasStrongNeighbour(s, w, h, high, x, y) {
      var ky, kx :| 0 <= ky < 3 && 0 <= kx < 3 && Blob(s, w, h, x, y, ky, kx) as real >= high;
      var cx, cy := Clamp(x + kx - 1, w), Clamp(y + ky - 1, h);
      assert PixelAt(o, w, h, cx, cy) == ThresholdPixel(s, w, h, high, low, cx, cy);
      assert Blob(o, w, h, x, y, ky, kx) == Blob(s, w, h, x, y, ky, kx);
    }
  }

  /**
   * Thresholding is idempotent: thresholding its own output again with the
   * same thresholds changes no pixel.
   */
  lemma Idempotent(o: seq<byte>, s: seq<byte>, w: nat, h: nat, high: real, low: real)
    requires |s| == 4 * w * h && IsThresholding(o, s, w, h, high, low)
    ensures IsThresholding(o, o, w, h, high, low)
  {
    forall x, y | 0 <= x < w && 0 <= y < h
      ensures PixelAt(o, w, h, x, y) == ThresholdPixel(o, w, h, high, low, x, y)
    {
      IdempotentAt(o, s, w, h, high, low, x, y);
    }
  }

  /** The blob analysis: scan the nine cells row by row and stop at the first strong one. */
  method BlobHasStrong(img: ImageData, highThreshold: real, x: int, y: int) returns (keep: bool)
    requires img.Valid() && 0 <= x < img.width && 0 <= y < img.height
    ensures keep == HasStrongNeighbour(img.data[..], img.width, img.height, highThreshold, x, y)
  {
    var px := img.data;
    var w, h := img.width, img.height;
    keep := false;
    var blobY := 0;
    label loop1:
    while blobY < 3
      invariant 0 <= blobY <= 3 && !keep
      invariant forall ky, kx :: 0 <= ky < blobY && 0 <= kx < 3 ==> Blob(px[..], w, h, x, y, ky, kx) as real < highThreshold
    {
      var cy := Max(0, Min(y + blobY - 1, h - 1));
      var blobX := 0;
      while blobX < 3
        invariant 0 <= blobX <= 3 && !keep
        invariant forall ky, kx :: 0 <= ky < blobY && 0 <= kx < 3 ==> Blob(px[..], w, h, x, y, ky, kx) as real < highThreshold
        invariant forall kx :: 0 <= kx < blobX ==> Blob(px[..], w, h, x, y, blobY, kx) as real < highThreshold
      {
        var cx := Max(0, Min(x + blobX - 1, w - 1));
        PixInRaster(cx, cy, w, h);
        var point := 4 * (cx + cy * w);
        assert px[point] == Blob(px[..], w, h, x, y, blobY, blobX);
        if px[point] as real >= highThreshold {
          keep := true;
          break loop1;
        }
        blobX := blobX + 1;
      }
      blobY := blobY + 1;
    }
  }

  /** The body of the pixel loop. */
  method ThresholdAt(img: ImageData, highThreshold: real, lowThreshold: real, x: int, y: int) returns (p: Rgba)
    requires img.Valid() && 0 <= x < img.width && 0 <= y < img.height
    ensures p == ThresholdPixel(img.data[..], img.width, img.height, highThreshold, lowThreshold, x, y)
  {
    var px := img.data;
    var w := img.width;
    PixInRaster(x, y, w, img.height);
    var point := 4 * (x + y * w);
    if px[point] as real >= highThreshold {
      p := Rgba(px[point], px[point + 1], px[point + 2], 255);
    } else if px[point] as real >= lowThreshold {
      var keep := BlobHasStrong(img, highThreshold, x, y);
      if keep {
        p := Rgba(px[point], px[point + 1], px[point + 2], 255);
      } else {
        p := Rgba(0, 0, 0, 255);
      }
    } else {
      p := Rgba(0, 0, 0, 255);
    }
  }

  /** `doubleThreshold(imgData, highThreshold, lowThreshold = highThreshold)`: a new, thresholded image. */
  method DoubleThreshold(img: ImageData, highThreshold: real, lowThreshold: real := highThreshold) returns (out: ImageData)
    requires img.Valid()
    ensures fresh(out) && fresh(out.data) && out.Valid()
    ensures out.width == img.width && out.height == img.height
    ensures IsThresholding(out.data[..], img.data[..], img.width, img.height, highThreshold, lowThreshold)
  {
    var w, h := img.width, img.height;
    out := new ImageData(w, h);
    var y := 0;
    while y < h
      invariant 0 <= y <= h && out.Valid() && out.width == w && out.height == h
      invariant forall xx, yy :: 0 <= xx < w && 0 <= yy < y ==>
        PixelAt(out.data[..], w, h, xx, yy) == ThresholdPixel(img.data[..], w, h, highThreshold, lowThreshold, xx, yy)
    {
      var x := 0;
      while x < w
        invariant 0 <= x <= w && out.Valid() && out.width == w && out.height == h
        invariant forall xx, yy :: 0 <= xx < w && 0 <= yy < y ==>
          PixelAt(out.data[..], w, h, xx, yy) == ThresholdPixel(img.data[..], w, h, highThreshold, lowThreshold, xx, yy)
        invariant forall xx :: 0 <= xx < x ==>
          PixelAt(out.data[..], w, h, xx, y) == ThresholdPixel(img.data[..], w, h, highThreshold, lowThreshold, xx, y)
      {
        var p := ThresholdAt(img, highThreshold, lowThreshold, x, y);
        PutPixel(out.data, w, h, x, y, p);
        x := x + 1;
      }
      y := y + 1;
    }
  }
}
