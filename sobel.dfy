/**
 * `sobelFilter(imgData)`: the 3 by 3 Sobel operator on the density (red)
 * channel with edge clamping.  Each pixel gets the gradient magnitude
 * `sqrt(magX^2 + magY^2)` in its three colour channels (stored with
 * clamping), and the gradient angle `|atan2(magY, magX)|`, rounded to one of
 * 0, 45, 90 or 135 degrees, goes into a separate per-pixel map.
 */
module Sobel {
  import opened Raster
  import opened JsMath

  /** Horizontal kernel: left column minus right column. */
  const SOBEL_X: seq<seq<int>> := [[1, 0, -1], [2, 0, -2], [1, 0, -1]]

  /** Vertical kernel: top row minus bottom row. */
  const SOBEL_Y: seq<seq<int>> := [[1, 2, 1], [0, 0, 0], [-1, -2, -1]]

  predicate Is3x3(g: seq<seq<int>>) {
    |g| == 3 && forall r :: 0 <= r < 3 ==> |g[r]| == 3
  }

  /** The density under kernel cell `(ky, kx)` for pixel `(x, y)`: offset by one, clamped to the raster. */
  function Tap(s: seq<byte>, w: nat, h: nat, x: int, y: int, ky: int, kx: int): byte
    requires |s| == 4 * w * h && w >= 1 && h >= 1
  {
    Red(s, w, h, Clamp(x + kx - 1, w), Clamp(y + ky - 1, h))
  }

  /** The first `n` products of kernel row `ky`. */
  function RowGrad(s: seq<byte>, w: nat, h: nat, g: seq<seq<int>>, x: int, y: int, ky: int, n: nat): int
    requires |s| == 4 * w * h && w >= 1 && h >= 1 && Is3x3(g) && 0 <= ky < 3 && n <= 3
  {
    if n == 0 then 0 else RowGrad(s, w, h, g, x, y, ky, n - 1) + Tap(s, w, h, x, y, ky, n - 1) * g[ky][n - 1]
  }

  /** The products of the first `n` kernel rows, accumulated as the loops do. */
  function Grad(s: seq<byte>, w: nat, h: nat, g: seq<seq<int>>, x: int, y: int, n: nat): int
    requires |s| == 4 * w * h && w >= 1 && h >= 1 && Is3x3(g) && n <= 3
  {
    if n == 0 then 0 else Grad(s, w, h, g, x, y, n - 1) + RowGrad(s, w, h, g, x, y, n - 1, 3)
  }

  /** `magX` of pixel `(x, y)`. */
  function MagX(s: seq<byte>, w: nat, h: nat, x: int, y: int): int
    requires |s| == 4 * w * h && w >= 1 && h >= 1
  {
    Grad(s, w, h, SOBEL_X, x, y, 3)
  }

  /** `magY` of pixel `(x, y)`. */
  function MagY(s: seq<byte>, w: nat, h: nat, x: int, y: int): int
    requires |s| == 4 * w * h && w >= 1 && h >= 1
  {
    Grad(s, w, h, SOBEL_Y, x, y, 3)
  }

  /** A full kernel row `[a, b, c]` weighs the three taps of its row by `a`, `b` and `c`. */
  lemma RowGradIs(s: seq<byte>, w: nat, h: nat, g: seq<seq<int>>, x: int, y: int, ky: int, a: int, b: int, c: int)
    requires |s| == 4 * w * h && w >= 1 && h >= 1 && Is3x3(g) && 0 <= ky < 3 && g[ky] == [a, b, c]
    ensures RowGrad(s, w, h, g, x, y, ky, 3)
      == Tap(s, w, h, x, y, ky, 0) * a + Tap(s, w, h, x, y, ky, 1) * b + Tap(s, w, h, x, y, ky, 2) * c
  {
    assert g[ky][0] == a && g[ky][1] == b && g[ky][2] == c;
    assert RowGrad(s, w, h, g, x, y, ky, 1) == Tap(s, w, h, x, y, ky, 0) * a;
    assert RowGrad(s, w, h, g, x, y, ky, 2) == RowGrad(s, w, h, g, x, y, ky, 1) + Tap(s, w, h, x, y, ky, 1) * b;
  }

  /** The three kernel rows, added up. */
  lemma GradIs(s: seq<byte>, w: nat, h: nat, g: seq<seq<int>>, x: int, y: int)
    requires |s| == 4 * w * h && w >= 1 && h >= 1 && Is3x3(g)
    ensures Grad(s, w, h, g, x, y, 3)
      == RowGrad(s, w, h, g, x, y, 0, 3) + RowGrad(s, w, h, g, x, y, 1, 3) + RowGrad(s, w, h, g, x, y, 2, 3)
  {
    assert Grad(s, w, h, g, x, y, 1) == RowGrad(s, w, h, g, x, y, 0, 3);
  }

  /** `magX` is the weighted left column minus the weighted right column. */
  lemma MagXColumns(s: seq<byte>, w: nat, h: nat, x: int, y: int)
    requires |s| == 4 * w * h && w >= 1 && h >= 1
    ensures MagX(s, w, h, x, y)
      == (Tap(s, w, h, x, y, 0, 0) + 2 * Tap(s, w, h, x, y, 1, 0) + Tap(s, w, h, x, y, 2, 0))
       - (Tap(s, w, h, x, y, 0, 2) + 2 * Tap(s, w, h, x, y, 1, 2) + Tap(s, w, h, x, y, 2, 2))
  {
    GradIs(s, w, h, SOBEL_X, x, y);
    RowGradIs(s, w, h, SOBEL_X, x, y, 0, 1, 0, -1);
    RowGradIs(s, w, h, SOBEL_X, x, y, 1, 2, 0, -2);
    RowGradIs(s, w, h, SOBEL_X, x, y, 2, 1, 0, -1);
  }

  /** `magY` is the weighted top row minus the weighted bottom row. */
  lemma MagYRows(s: seq<byte>, w: nat, h: nat, x: int, y: int)
    requires |s| == 4 * w * h && w >= 1 && h >= 1
    ensures MagY(s, w, h, x, y)
      == (Tap(s, w, h, x, y, 0, 0) + 2 * Tap(s, w, h, x, y, 0, 1) + Tap(s, w, h, x, y, 0, 2))
       - (Tap(s, w, h, x, y, 2, 0) + 2 * Tap(s, w, h, x, y, 2, 1) + Tap(s, w, h, x, y, 2, 2))
  {
    GradIs(s, w, h, SOBEL_Y, x, y);
    RowGradIs(s, w, h, SOBEL_Y, x, y, 0, 1, 2, 1);
    RowGradIs(s, w, h, SOBEL_Y, x, y, 1, 0, 0, 0);
    RowGradIs(s, w, h, SOBEL_Y, x, y, 2, -1, -2, -1);
  }

  /** Both directional totals lie in `[-1020, 1020]`: four times the largest density. */
  lemma GradientBounds(s: seq<byte>, w: nat, h: nat, x: int, y: int)
    requires |s| == 4 * w * h && w >= 1 && h >= 1
    ensures -1020 <= MagX(s, w, h, x, y) <= 1020
    ensures -1020 <= MagY(s, w, h, x, y) <= 1020
  {
    MagXColumns(s, w, h, x, y);
    MagYRows(s, w, h, x, y);
  }

  /** All nine taps around `(x, y)` carry the same density. */
  predicate FlatAround(s: seq<byte>, w: nat, h: nat, x: int, y: int)
    requires |s| == 4 * w * h && w >= 1 && h >= 1
  {
    forall ky, kx :: 0 <= ky < 3 && 0 <= kx < 3 ==> Tap(s, w, h, x, y, ky, kx) == Tap(s, w, h, x, y, 1, 1)
  }

  /** A flat neighbourhood has no gradient. */
  lemma FlatHasNoGradient(s: seq<byte>, w: nat, h: nat, x: int, y: int)
    requires |s| == 4 * w * h && w >= 1 && h >= 1 && FlatAround(s, w, h, x, y)
    ensures MagX(s, w, h, x, y) == 0 && MagY(s, w, h, x, y) == 0
  {
    MagXColumns(s, w, h, x, y);
    MagYRows(s, w, h, x, y);
    assert Tap(s, w, h, x, y, 0, 0) == Tap(s, w, h, x, y, 0, 2) == Tap(s, w, h, x, y, 2, 0) == Tap(s, w, h, x, y, 2, 2);
    assert Tap(s, w, h, x, y, 1, 0) == Tap(s, w, h, x, y, 1, 2) == Tap(s, w, h, x, y, 0, 1) == Tap(s, w, h, x, y, 2, 1);
  }

  /** The density is the same at every pixel. */
  predicate UniformDensity(s: seq<byte>, w: nat, h: nat)
    requires |s| == 4 * w * h
  {
    forall x, y :: 0 <= x < w && 0 <= y < h ==> Red(s, w, h, x, y) == Red(s, w, h, 0, 0)
  }

  /** Every neighbourhood of a raster of uniform density is flat. */
  lemma UniformIsFlat(s: seq<byte>, w: nat, h: nat, x: int, y: int)
    requires |s| == 4 * w * h && w >= 1 && h >= 1 && UniformDensity(s, w, h)
    ensures FlatAround(s, w, h, x, y)
  {
  }

  /** One of the four angle codes. */
  predicate IsDirection(d: int) {
    d == 0 || d == 45 || d == 90 || d == 135
  }

  /**
   * The rounding of `gradAngle` in radians to an angle code: below PI/8 or
   * from 7*PI/8 on it is 0, below 3*PI/8 it is 45, below 5*PI/8 it is 90,
   * otherwise 135.
   */
  function QuantizeAngle(theta: real): (d: byte)
    ensures IsDirection(d)
  {
    if theta < PI / 8.0 || theta >= 7.0 * PI / 8.0 then 0
    else if theta < 3.0 * PI / 8.0 then 45
    else if theta < 5.0 * PI / 8.0 then 90
    else 135
  }

  /** An angle code in radians. */
  function Radians(d: int): real {
    d as real * PI / 180.0
  }

  function Min3(a: real, b: real, c: real): real {
    if a <= b && a <= c then a else if b <= c then b else c
  }

  /** The angle between the lines through the origin at angles `theta` and `phi` (lines, so modulo PI). */
  function LineDist(theta: real, phi: real): real {
    Min3(AbsReal(theta - phi), AbsReal(theta - phi - PI), AbsReal(theta - phi + PI))
  }

  /**
   * For an angle in `[0, PI]` (what `|atan2|` returns) the code is the
   * direction among 0, 45, 90 and 135 degrees whose line is nearest.
   */
  lemma QuantizeNearest(theta: real)
    requires 0.0 <= theta <= PI
    ensures forall d :: IsDirection(d) ==> LineDist(theta, Radians(QuantizeAngle(theta))) <= LineDist(theta, Radians(d))
  {
    assert Radians(0) == 0.0 && Radians(45) == PI / 4.0 && Radians(90) == PI / 2.0 && Radians(135) == 3.0 * PI / 4.0;
  }

  /** The angle code of directional totals `magX` and `magY`: `|atan2(magY, magX)|` rounded to a direction. */
  function AngleCode(magX: int, magY: int, atan2: (real, real) -> real): (d: byte)
    ensures IsDirection(d)
  {
    QuantizeAngle(AbsReal(atan2(magY as real, magX as real)))
  }

  /** The angle code stored for pixel `(x, y)`. */
  function SobelAngle(s: seq<byte>, w: nat, h: nat, atan2: (real, real) -> real, x: int, y: int): (d: byte)
    requires |s| == 4 * w * h && w >= 1 && h >= 1
    ensures IsDirection(d)
  {
    AngleCode(MagX(s, w, h, x, y), MagY(s, w, h, x, y), atan2)
  }

  /** The output pixel: the gradient magnitude stored into each colour channel, opaque. */
  function SobelPixel(s: seq<byte>, w: nat, h: nat, sqrt: real -> real, x: int, y: int): Rgba
    requires |s| == 4 * w * h && w >= 1 && h >= 1
  {
    var mx, my := MagX(s, w, h, x, y), MagY(s, w, h, x, y);
    var m := StoreReal(sqrt((mx * mx + my * my) as real));
    Rgba(m, m, m, 255)
  }

  /** `o` and `angles` are, pixel for pixel, the magnitude image and the angle map the Sobel stage makes of `s`. */
  predicate IsSobel(o: seq<byte>, angles: seq<byte>, s: seq<byte>, w: nat, h: nat, sqrt: real -> real, atan2: (real, real) -> real)
    requires |s| == 4 * w * h
  {
    |o| == 4 * w * h && |angles| == w * h
    && (forall x, y :: 0 <= x < w && 0 <= y < h ==> PixelAt(o, w, h, x, y) == SobelPixel(s, w, h, sqrt, x, y))
    && (forall x, y :: 0 <= x < w && 0 <= y < h ==> CellAt(angles, w, h, x, y) == SobelAngle(s, w, h, atan2, x, y))
  }

  /** Squaring is increasing on the non-negative numbers. */
  lemma SquareMonotone(a: real, b: real)
    requires 0.0 <= a < b
    ensures a * a < b * b
  {
    var p1, p2, p3 := a * a, a * b, b * b;
    assert p1 <= p2;
    assert p2 < p3;
  }

  /** A non-negative root of a number of at least `k*k` is at least `k`. */
  lemma RootAtLeast(q: real, n: int, k: int)
    requires q >= 0.0 && q * q == n as real && k >= 1 && n >= k * k
    ensures q >= k as real
  {
    var r := k as real;
    assert (k * k) as real == r * r;
    if q < r {
      SquareMonotone(q, r);
    }
  }

  /** A non-negative root of zero rounds to zero. */
  lemma ZeroRoot(q: real, n: int)
    requires q >= 0.0 && q * q == n as real && n <= 0
    ensures q < 0.5
  {
    if q >= 0.5 {
      SquareMonotone(0.5, q);
    }
  }

  /** A non-zero integer has a square of at least one. */
  lemma SquareAtLeastOne(n: int)
    ensures n != 0 ==> n * n >= 1
    ensures n * n >= 0
  {
    if n > 0 {
      assert n * n >= n * 1;
    } else if n < 0 {
      assert n * n == (-n) * (-n);
      assert (-n) * (-n) >= (-n) * 1;
    }
  }

  /**
   * With a true square root, a pixel is black in the output exactly when
   * both directional totals are zero: every change of density is an edge.
   */
  lemma EdgeIffGradient(s: seq<byte>, w: nat, h: nat, sqrt: real -> real, x: int, y: int)
    requires |s| == 4 * w * h && w >= 1 && h >= 1 && SqrtLike(sqrt)
    ensures SobelPixel(s, w, h, sqrt, x, y).r == 0 <==> MagX(s, w, h, x, y) == 0 && MagY(s, w, h, x, y) == 0
  {
    var mx, my := MagX(s, w, h, x, y), MagY(s, w, h, x, y);
    var n := mx * mx + my * my;
    SquareAtLeastOne(mx);
    SquareAtLeastOne(my);
    var q := sqrt(n as real);
    assert q >= 0.0 && q * q == n as real;
    var b := StoreReal(q);
    if mx == 0 && my == 0 {
      assert n == 0;
      ZeroRoot(q, n);
      assert RealDist(q, b) <= RealDist(q, 0);
    } else {
      RootAtLeast(q, n, 1);
      assert RealDist(q, b) <= RealDist(q, 1);
    }
  }

  /** With a true square root, a gradient of norm 255 or more saturates the output. */
  lemma StrongGradientSaturates(s: seq<byte>, w: nat, h: nat, sqrt: real -> real, x: int, y: int)
    requires |s| == 4 * w * h && w >= 1 && h >= 1 && SqrtLike(sqrt)
    requires MagX(s, w, h, x, y) * MagX(s, w, h, x, y) + MagY(s, w, h, x, y) * MagY(s, w, h, x, y) >= 255 * 255
    ensures SobelPixel(s, w, h, sqrt, x, y) == Rgba(255, 255, 255, 255)
  {
    var mx, my := MagX(s, w, h, x, y), MagY(s, w, h, x, y);
    var n := mx * mx + my * my;
    var q := sqrt(n as real);
    RootAtLeast(q, n, 255);
  }

  /**
   * A pixel whose nine taps carry the same density is no edge: with
   * `sqrt(0) == 0` and `atan2(0, 0) == 0`, as in JavaScript, it is black and
   * its angle code is 0.
   */
  lemma FlatHasNoEdge(s: seq<byte>, w: nat, h: nat, sqrt: real -> real, atan2: (real, real) -> real, x: int, y: int)
    requires |s| == 4 * w * h && w >= 1 && h >= 1 && FlatAround(s, w, h, x, y)
    requires sqrt(0.0) == 0.0 && atan2(0.0, 0.0) == 0.0
    ensures SobelPixel(s, w, h, sqrt, x, y) == BLACK
    ensures SobelAngle(s, w, h, atan2, x, y) == 0
  {
    FlatHasNoGradient(s, w, h, x, y);
  }

  /**
   * A raster of uniform density has no edges: every output pixel is black
   * and, with `atan2(0, 0) == 0` as in JavaScript, every angle code is 0.
   */
  lemma UniformHasNoEdges(s: seq<byte>, w: nat, h: nat, sqrt: real -> real, atan2: (real, real) -> real, x: int, y: int)
    requires |s| == 4 * w * h && w >= 1 && h >= 1 && UniformDensity(s, w, h)
    requires sqrt(0.0) == 0.0 && atan2(0.0, 0.0) == 0.0
    ensures SobelPixel(s, w, h, sqrt, x, y) == BLACK
    ensures SobelAngle(s, w, h, atan2, x, y) == 0
  {
    UniformIsFlat(s, w, h, x, y);
    FlatHasNoEdge(s, w, h, sqrt, atan2, x, y);
  }

  /** Adding the product of the tap under kernel cell `(ky, n)` extends a row sum by one column. */
  lemma RowGradStep(s: seq<byte>, w: nat, h: nat, g: seq<seq<int>>, x: int, y: int, ky: int, n: nat, p: int)
    requires |s| == 4 * w * h && w >= 1 && h >= 1 && Is3x3(g) && 0 <= ky < 3 && n < 3
    requires p == Tap(s, w, h, x, y, ky, n)
    ensures RowGrad(s, w, h, g, x, y, ky, n + 1) == RowGrad(s, w, h, g, x, y, ky, n) + p * g[ky][n]
  {
  }

  /** The inner loop over `sobelX` for kernel row `sobelY`. */
  method GradientRow(img: ImageData, x: int, y: int, sobelY: int, x0: int, y0: int) returns (magX: int, magY: int)
    requires img.Valid() && 0 <= x < img.width && 0 <= y < img.height && 0 <= sobelY < 3
    ensures magX == x0 + RowGrad(img.data[..], img.width, img.height, SOBEL_X, x, y, sobelY, 3)
    ensures magY == y0 + RowGrad(img.data[..], img.width, img.height, SOBEL_Y, x, y, sobelY, 3)
  {
    var px := img.data;
    var w, h := img.width, img.height;
    var sobelXKernel, sobelYKernel := SOBEL_X, SOBEL_Y;
    magX, magY := x0, y0;
    var sy := Max(0, Min(y + sobelY - 1, h - 1));
    var sobelX := 0;
    while sobelX < 3
      invariant 0 <= sobelX <= 3
      invariant magX == x0 + RowGrad(px[..], w, h, SOBEL_X, x, y, sobelY, sobelX)
      invariant magY == y0 + RowGrad(px[..], w, h, SOBEL_Y, x, y, sobelY, sobelX)
    {
      var sx := Max(0, Min(x + sobelX - 1, w - 1));
      PixInRaster(sx, sy, w, h);
      var point := 4 * (sx + sy * w);
      var d := px[point];
      assert d == Tap(px[..], w, h, x, y, sobelY, sobelX);
      RowGradStep(px[..], w, h, SOBEL_X, x, y, sobelY, sobelX, d);
      RowGradStep(px[..], w, h, SOBEL_Y, x, y, sobelY, sobelX, d);
      magX := magX + d * sobelXKernel[sobelY][sobelX];
      magY := magY + d * sobelYKernel[sobelY][sobelX];
      sobelX := sobelX + 1;
    }
  }

  /** The directional totals of pixel `(x, y)`, summed over the kernel rows as the loops do. */
  method Gradient(img: ImageData, x: int, y: int) returns (magX: int, magY: int)
    requires img.Valid() && 0 <= x < img.width && 0 <= y < img.height
    ensures magX == MagX(img.data[..], img.width, img.height, x, y)
    ensures magY == MagY(img.data[..], img.width, img.height, x, y)
  {
    magX, magY := 0, 0;
    var sobelY := 0;
    while sobelY < 3
      invariant 0 <= sobelY <= 3
      invariant magX == Grad(img.data[..], img.width, img.height, SOBEL_X, x, y, sobelY)
      invariant magY == Grad(img.data[..], img.width, img.height, SOBEL_Y, x, y, sobelY)
    {
      magX, magY := GradientRow(img, x, y, sobelY, magX, magY);
      sobelY := sobelY + 1;
    }
  }

  /** The body of the pixel loop: magnitude, angle and its rounding for pixel `(x, y)`. */
  method SobelAt(img: ImageData, sqrt: real -> real, atan2: (real, real) -> real, x: int, y: int)
    returns (p: Rgba, code: byte)
    requires img.Valid() && 0 <= x < img.width && 0 <= y < img.height
    ensures p == SobelPixel(img.data[..], img.width, img.height, sqrt, x, y)
    ensures code == SobelAngle(img.data[..], img.width, img.height, atan2, x, y)
  {
    var magX, magY := Gradient(img, x, y);
    var mag := sqrt((magX * magX + magY * magY) as real);
    var gradAngle := AbsReal(atan2(magY as real, magX as real));
    if gradAngle < PI / 8.0 || gradAngle >= 7.0 * PI / 8.0 {
      code := 0;
    } else if gradAngle < 3.0 * PI / 8.0 {
      code := 45;
    } else if gradAngle < 5.0 * PI / 8.0 {
      code := 90;
    } else {
      code := 135;
    }
    var m := StoreReal(mag);
    p := Rgba(m, m, m, 255);
  }

  /**
   * `sobelFilter(imgData)`: a new image holding the gradient magnitude of
   * every pixel and a new `w*h` map holding its angle code.
   */
  method SobelFilter(img: ImageData, sqrt: real -> real, atan2: (real, real) -> real)
    returns (out: ImageData, outAngles: array<byte>)
    requires img.Valid()
    ensures fresh(out) && fresh(out.data) && fresh(outAngles) && out.Valid()
    ensures out.width == img.width && out.height == img.height
    ensures IsSobel(out.data[..], outAngles[..], img.data[..], img.width, img.height, sqrt, atan2)
  {
    var w, h := img.width, img.height;
    out := new ImageData(w, h);
    outAngles := new byte[w * h](_ => 0);
    var y := 0;
    while y < h
      invariant 0 <= y <= h && out.Valid() && out.width == w && out.height == h && outAngles.Length == w * h
      invariant forall xx, yy :: 0 <= xx < w && 0 <= yy < y ==>
        PixelAt(out.data[..], w, h, xx, yy) == SobelPixel(img.data[..], w, h, sqrt, xx, yy)
      invariant forall xx, yy :: 0 <= xx < w && 0 <= yy < y ==>
        CellAt(outAngles[..], w, h, xx, yy) == SobelAngle(img.data[..], w, h, atan2, xx, yy)
    {
      SobelRow(img, out, outAngles, sqrt, atan2, y);
      y := y + 1;
    }
  }

  /** One pass of the `x` loop: row `y` of the magnitude image and of the angle map; nothing else changes. */
  method SobelRow(img: ImageData, out: ImageData, outAngles: array<byte>, sqrt: real -> real, atan2: (real, real) -> real, y: int)
    requires img.Valid() && out.Valid() && out.width == img.width && out.height == img.height
    requires outAngles.Length == img.width * img.height && 0 <= y < img.height
    requires out.data != outAngles && img.data != out.data && img.data != outAngles
    modifies out.data, outAngles
    ensures forall xx :: 0 <= xx < img.width ==>
      PixelAt(out.data[..], img.width, img.height, xx, y) == SobelPixel(img.data[..], img.width, img.height, sqrt, xx, y)
    ensures forall xx :: 0 <= xx < img.width ==>
      CellAt(outAngles[..], img.width, img.height, xx, y) == SobelAngle(img.data[..], img.width, img.height, atan2, xx, y)
    ensures forall xx, yy :: 0 <= xx < img.width && 0 <= yy < img.height && yy != y ==>
      PixelAt(out.data[..], img.width, img.height, xx, yy) == PixelAt(old(out.data[..]), img.width, img.height, xx, yy)
    ensures forall xx, yy :: 0 <= xx < img.width && 0 <= yy < img.height && yy != y ==>
      CellAt(outAngles[..], img.width, img.height, xx, yy) == CellAt(old(outAngles[..]), img.width, img.height, xx, yy)
  {
    var w, h := img.width, img.height;
    var x := 0;
    while x < w
      invariant 0 <= x <= w
      invariant forall xx, yy :: 0 <= xx < w && 0 <= yy < h && yy != y ==>
        PixelAt(out.data[..], w, h, xx, yy) == PixelAt(old(out.data[..]), w, h, xx, yy)
      invariant forall xx, yy :: 0 <= xx < w && 0 <= yy < h && yy != y ==>
        CellAt(outAngles[..], w, h, xx, yy) == CellAt(old(outAngles[..]), w, h, xx, yy)
      invariant forall xx :: 0 <= xx < x ==>
        PixelAt(out.data[..], w, h, xx, y) == SobelPixel(img.data[..], w, h, sqrt, xx, y)
      invariant forall xx :: 0 <= xx < x ==>
        CellAt(outAngles[..], w, h, xx, y) == SobelAngle(img.data[..], w, h, atan2, xx, y)
    {
      var p, code := SobelAt(img, sqrt, atan2, x, y);
      PutCell(outAngles, w, h, x, y, code);
      PutPixel(out.data, w, h, x, y, p);
      x := x + 1;
    }
  }
}
