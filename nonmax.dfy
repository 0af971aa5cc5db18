/**
 * `nonMaxSuppression(imgData, gradientAngles)`: thinning of the gradient
 * image.  Each pixel is compared with its two neighbours along its rounded
 * gradient angle (edge clamped); it keeps its colour, made opaque, when its
 * density is at least that of both, and becomes opaque black otherwise.
 */
module NonMax {
  import opened Raster

  /**
   * The step from a pixel to the first neighbour compared for an angle code;
   * the second neighbour lies one step the other way.  Raster rows grow
   * downwards, so north is `dy == -1`.  Every code other than 0, 90 and 45
   * is handled as 135.
   */
  function Offset(angle: int): (int, int) {
    if angle == 0 then (1, 0)          // east, and west opposite
    else if angle == 90 then (0, -1)   // north, and south opposite
    else if angle == 45 then (1, -1)   // north-east, and south-west opposite
    else (-1, -1)                      // north-west, and south-east opposite
  }

  /** The density at `(x + dx, y + dy)`, the coordinates clamped to the raster. */
  function Around(s: seq<byte>, w: nat, h: nat, x: int, y: int, dx: int, dy: int): byte
    requires |s| == 4 * w * h && w >= 1 && h >= 1
  {
    Red(s, w, h, Clamp(x + dx, w), Clamp(y + dy, h))
  }

  /** The density `sign` steps along the offset of `angle` from `(x, y)`. */
  function Neighbour(s: seq<byte>, w: nat, h: nat, angle: int, x: int, y: int, sign: int): byte
    requires |s| == 4 * w * h && 0 <= x < w && 0 <= y < h
  {
    Around(s, w, h, x, y, sign * Offset(angle).0, sign * Offset(angle).1)
  }

  /** The density of `(x, y)` is at least that of both neighbours along `angle` (ties count as maxima). */
  predicate LocalMax(s: seq<byte>, w: nat, h: nat, angle: int, x: int, y: int)
    requires |s| == 4 * w * h && 0 <= x < w && 0 <= y < h
  {
    Red(s, w, h, x, y) >= Neighbour(s, w, h, angle, x, y, 1)
    && Red(s, w, h, x, y) >= Neighbour(s, w, h, angle, x, y, -1)
  }

  /** The output pixel at `(x, y)`, the angle code read from `angles[x + y*w]`. */
  function NmsPixel(s: seq<byte>, w: nat, h: nat, angles: seq<byte>, x: int, y: int): Rgba
    requires |s| == 4 * w * h && |angles| == w * h && 0 <= x < w && 0 <= y < h
  {
    if LocalMax(s, w, h, CellAt(angles, w, h, x, y), x, y) then Opaque(s, w, h, x, y) else BLACK
  }

  /** `o` is, pixel for pixel, what suppression makes of `s` with the angle map `angles`. */
  predicate IsSuppression(o: seq<byte>, s: seq<byte>, w: nat, h: nat, angles: seq<byte>)
    requires |s| == 4 * w * h && |angles| == w * h
  {
    |o| == 4 * w * h
    && forall x, y :: 0 <= x < w && 0 <= y < h ==> PixelAt(o, w, h, x, y) == NmsPixel(s, w, h, angles, x, y)
  }

  /** Suppression never raises a colour channel and always makes the pixel opaque. */
  lemma NeverBrightens(s: seq<byte>, w: nat, h: nat, angles: seq<byte>, x: int, y: int)
    requires |s| == 4 * w * h && |angles| == w * h && 0 <= x < w && 0 <= y < h
    ensures NmsPixel(s, w, h, angles, x, y).r <= Red(s, w, h, x, y)
    ensures NmsPixel(s, w, h, angles, x, y).g <= PixelAt(s, w, h, x, y).g
    ensures NmsPixel(s, w, h, angles, x, y).b <= PixelAt(s, w, h, x, y).b
    ensures NmsPixel(s, w, h, angles, x, y).a == 255
  {
  }

  /** A pixel kept by suppression keeps its colour; a suppressed one is black. */
  lemma KeptOrBlack(s: seq<byte>, w: nat, h: nat, angles: seq<byte>, x: int, y: int)
    requires |s| == 4 * w * h && |angles| == w * h && 0 <= x < w && 0 <= y < h
    ensures var p := NmsPixel(s, w, h, angles, x, y);
      p == Opaque(s, w, h, x, y) || p == BLACK
    ensures NmsPixel(s, w, h, angles, x, y) == Opaque(s, w, h, x, y) <==>
      LocalMax(s, w, h, CellAt(angles, w, h, x, y), x, y) || Opaque(s, w, h, x, y) == BLACK
  {
  }

  /**
   * A pixel at least as dense as every pixel of its clamped 3 by 3
   * neighbourhood survives, whatever its angle code.
   */
  lemma NeighbourhoodMaxKept(s: seq<byte>, w: nat, h: nat, angles: seq<byte>, x: int, y: int)
    requires |s| == 4 * w * h && |angles| == w * h && 0 <= x < w && 0 <= y < h
    requires forall dx, dy :: -1 <= dx <= 1 && -1 <= dy <= 1 ==> Around(s, w, h, x, y, dx, dy) <= Red(s, w, h, x, y)
    ensures NmsPixel(s, w, h, angles, x, y) == Opaque(s, w, h, x, y)
  {
    var (dx, dy) := Offset(CellAt(angles, w, h, x, y));
    assert Around(s, w, h, x, y, dx, dy) <= Red(s, w, h, x, y);
    assert Around(s, w, h, x, y, -1 * dx, -1 * dy) <= Red(s, w, h, x, y);
  }

  /** On a raster of uniform density every pixel is a (tied) maximum and is kept. */
  lemma UniformKept(s: seq<byte>, w: nat, h: nat, angles: seq<byte>, x: int, y: int)
    requires |s| == 4 * w * h && |angles| == w * h && 0 <= x < w && 0 <= y < h
    requires forall xx, yy :: 0 <= xx < w && 0 <= yy < h ==> Red(s, w, h, xx, yy) == Red(s, w, h, 0, 0)
    ensures NmsPixel(s, w, h, angles, x, y) == Opaque(s, w, h, x, y)
  {
    forall dx, dy | -1 <= dx <= 1 && -1 <= dy <= 1
      ensures Around(s, w, h, x, y, dx, dy) <= Red(s, w, h, x, y)
    {
      var xx, yy := Clamp(x + dx, w), Clamp(y + dy, h);
      assert Red(s, w, h, xx, yy) == Red(s, w, h, 0, 0);
    }
    NeighbourhoodMaxKept(s, w, h, angles, x, y);
  }

  /** One pixel of `Idempotent`. */
  lemma IdempotentAt(o: seq<byte>, s: seq<byte>, w: nat, h: nat, angles: seq<byte>, x: int, y: int)
    requires |s| == 4 * w * h && |angles| == w * h && IsSuppression(o, s, w, h, angles)
    requires 0 <= x < w && 0 <= y < h
    ensures PixelAt(o, w, h, x, y) == NmsPixel(o, w, h, angles, x, y)
  {
    var angle := CellAt(angles, w, h, x, y);
    assert PixelAt(o, w, h, x, y) == NmsPixel(s, w, h, angles, x, y);
    if LocalMax(s, w, h, angle, x, y) {
      var x1, y1 := Clamp(x + Offset(angle).0, w), Clamp(y + Offset(angle).1, h);
      var x2, y2 := Clamp(x + -1 * Offset(angle).0, w), Clamp(y + -1 * Offset(angle).1, h);
      assert PixelAt(o, w, h, x1, y1) == NmsPixel(s, w, h, angles, x1, y1);
      assert PixelAt(o, w, h, x2, y2) == NmsPixel(s, w, h, angles, x2, y2);
      NeverBrightens(s, w, h, angles, x1, y1);
      NeverBrightens(s, w, h, angles, x2, y2);
      assert Neighbour(o, w, h, angle, x, y, 1) <= Neighbour(s, w, h, angle, x, y, 1);
      assert Neighbour(o, w, h, angle, x, y, -1) <= Neighbour(s, w, h, angle, x, y, -1);
    }
  }

  /**
   * Suppression is idempotent: suppressing its own output again with the
   * same angle map changes no pixel.
   */
  lemma Idempotent(o: seq<byte>, s: seq<byte>, w: nat, h: nat, angles: seq<byte>)
    requires |s| == 4 * w * h && |angles| == w * h && IsSuppression(o, s, w, h, angles)
    ensures IsSuppression(o, o, w, h, angles)
  {
    forall x, y | 0 <= x < w && 0 <= y < h
      ensures PixelAt(o, w, h, x, y) == NmsPixel(o, w, h, angles, x, y)
    {
      IdempotentAt(o, s, w, h, angles, x, y);
    }
  }

  /** The branch on the angle code: the coordinates of the two compared neighbours. */
  method ComparedPoints(w: nat, h: nat, angle: int, x: int, y: int) returns (x1: int, y1: int, x2: int, y2: int)
    requires 0 <= x < w && 0 <= y < h
    ensures x1 == Clamp(x + Offset(angle).0, w) && y1 == Clamp(y + Offset(angle).1, h)
    ensures x2 == Clamp(x + -1 * Offset(angle).0, w) && y2 == Clamp(y + -1 * Offset(angle).1, h)
  {
    if angle == 0 {
      x1, y1, x2, y2 := Min(w - 1, x + 1), y, Max(0, x - 1), y;              // east, west
    } else if angle == 90 {
      x1, y1, x2, y2 := x, Max(0, y - 1), x, Min(h - 1, y + 1);              // north, south
    } else if angle == 45 {
      x1, y1, x2, y2 := Min(w - 1, x + 1), Max(0, y - 1), Max(0, x - 1), Min(h - 1, y + 1);  // north-east, south-west
    } else {
      x1, y1, x2, y2 := Max(0, x - 1), Max(0, y - 1), Min(w - 1, x + 1), Min(h - 1, y + 1);  // north-west, south-east
    }
  }

  /** The body of the pixel loop: the two compared densities and the stored pixel. */
  method SuppressAt(img: ImageData, gradientAngles: array<byte>, x: int, y: int) returns (p: Rgba)
    requires img.Valid() && gradientAngles.Length == img.width * img.height
    requires 0 <= x < img.width && 0 <= y < img.height
    ensures p == NmsPixel(img.data[..], img.width, img.height, gradientAngles[..], x, y)
  {
    var px := img.data;
    var w, h := img.width, img.height;
    PixInRaster(x, y, w, h);
    var point := 4 * (x + y * w);
    var angle := gradientAngles[x + y * w];
    assert angle == CellAt(gradientAngles[..], w, h, x, y);
    var x1, y1, x2, y2 := ComparedPoints(w, h, angle, x, y);
    PixInRaster(x1, y1, w, h);
    PixInRaster(x2, y2, w, h);
    var compare1 := px[Idx(x1, y1, w)];
    var compare2 := px[Idx(x2, y2, w)];
    assert compare1 == Neighbour(px[..], w, h, angle, x, y, 1);
    assert compare2 == Neighbour(px[..], w, h, angle, x, y, -1);
    if px[point] >= compare1 && px[point] >= compare2 {
      p := Rgba(px[point], px[point + 1], px[point + 2], 255);
    } else {
      p := Rgba(0, 0, 0, 255);
    }
  }

  /** `nonMaxSuppression(imgData, gradientAngles)`: a new image, each pixel suppressed or kept. */
  method NonMaxSuppression(img: ImageData, gradientAngles: array<byte>) returns (out: ImageData)
    requires img.Valid() && gradientAngles.Length == img.width * img.height
    ensures fresh(out) && fresh(out.data) && out.Valid()
    ensures out.width == img.width && out.height == img.height
    ensures IsSuppression(out.data[..], img.data[..], img.width, img.height, gradientAngles[..])
  {
    var w, h := img.width, img.height;
    out := new ImageData(w, h);
    var y := 0;
    while y < h
      invariant 0 <= y <= h && out.Valid() && out.width == w && out.height == h
      invariant forall xx, yy :: 0 <= xx < w && 0 <= yy < y ==>
        PixelAt(out.data[..], w, h, xx, yy) == NmsPixel(img.data[..], w, h, gradientAngles[..], xx, yy)
    {
      var x := 0;
      while x < w
        invariant 0 <= x <= w && out.Valid() && out.width == w && out.height == h
        invariant forall xx, yy :: 0 <= xx < w && 0 <= yy < y ==>
          PixelAt(out.data[..], w, h, xx, yy) == NmsPixel(img.data[..], w, h, gradientAngles[..], xx, yy)
        invariant forall xx :: 0 <= xx < x ==>
          PixelAt(out.data[..], w, h, xx, y) == NmsPixel(img.data[..], w, h, gradientAngles[..], xx, y)
      {
        var p := SuppressAt(img, gradientAngles, x, y);
        PutPixel(out.data, w, h, x, y, p);
        x := x + 1;
      }
      y := y + 1;
    }
  }
}
