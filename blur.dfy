/**
 * `gaussianBlur(imgData, convolution, grayscale)`: every output pixel is the
 * convolution of the edge-clamped neighbourhood with the matrix, channel by
 * channel; in grayscale mode all three colour channels receive the floored
 * mean of the three sums, otherwise each receives its own floored sum.
 * Alpha is always 255.
 */
module Blur {
  import opened Raster
  import opened Kernel

  /** Every row is as long as the matrix is tall (`convDiam` by `convDiam`). */
  predicate Square(k: seq<seq<real>>) {
    forall r :: 0 <= r < |k| ==> |k[r]| == |k|
  }

  /**
   * The input byte the matrix entry at row `ky`, column `kx` is applied to
   * for output pixel `(x, y)`: channel `c` of the pixel offset by
   * `(kx - convDiam/2, ky - convDiam/2)` and clamped to the raster.
   */
  function Sample(s: seq<byte>, w: nat, h: nat, d: nat, x: int, y: int, c: int, ky: int, kx: int): byte
    requires |s| == 4 * w * h && w >= 1 && h >= 1 && 0 <= c < 3
  {
    Channel(s, w, h, Clamp(x + kx - d / 2, w), Clamp(y + ky - d / 2, h), c)
  }

  /**
   * The `d` by `d` neighbourhood of channel `c` the matrix is laid over for
   * output pixel `(x, y)`, as numbers.
   */
  function Window(s: seq<byte>, w: nat, h: nat, d: nat, x: int, y: int, c: int): (win: seq<seq<real>>)
    requires |s| == 4 * w * h && w >= 1 && h >= 1 && 0 <= c < 3
    ensures |win| == d && forall ky :: 0 <= ky < d ==> |win[ky]| == d
  {
    seq(d, ky => seq(d, kx => Sample(s, w, h, d, x, y, c, ky, kx) as real))
  }

  /** `a[0]*b[0] + … + a[n-1]*b[n-1]`, accumulated left to right. */
  function RowDot(a: seq<real>, b: seq<real>, n: nat): real
    requires n <= |a| && n <= |b|
  {
    if n == 0 then 0.0 else RowDot(a, b, n - 1) + a[n - 1] * b[n - 1]
  }

  /** The entrywise products of the first `n` rows of `k` and `win`, row after row. */
  function Dot(k: seq<seq<real>>, win: seq<seq<real>>, n: nat): real
    requires n <= |k| && n <= |win| && forall i :: 0 <= i < n ==> |k[i]| == |win[i]|
  {
    if n == 0 then 0.0 else Dot(k, win, n - 1) + RowDot(k[n - 1], win[n - 1], |k[n - 1]|)
  }

  /** `newR`, `newG` or `newB` (channel `c`) once the whole matrix has been applied. */
  function Conv(s: seq<byte>, w: nat, h: nat, k: seq<seq<real>>, x: int, y: int, c: int): real
    requires |s| == 4 * w * h && w >= 1 && h >= 1 && 0 <= c < 3 && Square(k)
  {
    Dot(k, Window(s, w, h, |k|, x, y, c), |k|)
  }

  /** Output pixel `(x, y)`: the floored sums (or their floored mean), stored with clamping. */
  function BlurPixel(s: seq<byte>, w: nat, h: nat, k: seq<seq<real>>, grayscale: bool, x: int, y: int): Rgba
    requires |s| == 4 * w * h && w >= 1 && h >= 1 && Square(k)
  {
    var r, g, b := Conv(s, w, h, k, x, y, 0), Conv(s, w, h, k, x, y, 1), Conv(s, w, h, k, x, y, 2);
    if grayscale then
      var density := ClampToByte(((r + g + b) / 3.0).Floor);
      Rgba(density, density, density, 255)
    else
      Rgba(ClampToByte(r.Floor), ClampToByte(g.Floor), ClampToByte(b.Floor), 255)
  }

  /** `o` is, pixel for pixel, what the blur makes of `s` with kernel `k`. */
  predicate IsBlurring(o: seq<byte>, s: seq<byte>, w: nat, h: nat, k: seq<seq<real>>, grayscale: bool)
    requires |s| == 4 * w * h && Square(k)
  {
    |o| == 4 * w * h
    && forall x, y :: 0 <= x < w && 0 <= y < h ==> PixelAt(o, w, h, x, y) == BlurPixel(s, w, h, k, grayscale, x, y)
  }

  /** Channel `c` of every pixel of the raster equals `v`. */
  predicate UniformChannel(s: seq<byte>, w: nat, h: nat, c: int, v: byte)
    requires |s| == 4 * w * h && 0 <= c < 4
  {
    forall x, y :: 0 <= x < w && 0 <= y < h ==> Channel(s, w, h, x, y, c) == v
  }

  /** Against a constant row, a row of products is the row's weight times the constant. */
  lemma {:induction false} RowDotConstant(a: seq<real>, b: seq<real>, n: nat, v: real)
    requires n <= |a| && n <= |b| && forall j :: 0 <= j < n ==> b[j] == v
    ensures RowDot(a, b, n) == RowSum(a, n) * v
  {
    if n > 0 {
      RowDotConstant(a, b, n - 1, v);
      ScaledStep(RowSum(a, n), RowSum(a, n - 1), a[n - 1], RowDot(a, b, n), RowDot(a, b, n - 1), a[n - 1] * b[n - 1], v);
    }
  }

  /** One step of a running sum of weights, each scaled by `v`. */
  lemma ScaledStep(total: real, prev: real, last: real, acc: real, prevAcc: real, lastAcc: real, v: real)
    requires total == prev + last && acc == prevAcc + lastAcc
    requires prevAcc == prev * v && lastAcc == last * v
    ensures acc == total * v
  {
  }

  /** If every row of products is its row's weight times `v`, so is the whole convolution. */
  lemma {:induction false} DotOfScaledRows(k: seq<seq<real>>, win: seq<seq<real>>, n: nat, v: real)
    requires n <= |k| && n <= |win| && forall i :: 0 <= i < n ==> |k[i]| == |win[i]|
    requires forall i :: 0 <= i < n ==> RowDot(k[i], win[i], |k[i]|) == RowSum(k[i], |k[i]|) * v
    ensures Dot(k, win, n) == Sum(k, n) * v
  {
    if n > 0 {
      DotOfScaledRows(k, win, n - 1, v);
      ScaledStep(Sum(k, n), Sum(k, n - 1), RowSum(k[n - 1], |k[n - 1]|), Dot(k, win, n),
        Dot(k, win, n - 1), RowDot(k[n - 1], win[n - 1], |k[n - 1]|), v);
    }
  }

  /** Every entry of the matrix equals `v`. */
  predicate ConstantMatrix(win: seq<seq<real>>, v: real) {
    forall i, j :: 0 <= i < |win| && 0 <= j < |win[i]| ==> win[i][j] == v
  }

  /** Against a window whose entries are all `v`, the convolution is the matrix total times `v`. */
  lemma DotConstant(k: seq<seq<real>>, win: seq<seq<real>>, v: real)
    requires |k| == |win| && forall i :: 0 <= i < |k| ==> |k[i]| == |win[i]|
    requires ConstantMatrix(win, v)
    ensures Dot(k, win, |k|) == Total(k) * v
  {
    forall i | 0 <= i < |k| ensures RowDot(k[i], win[i], |k[i]|) == RowSum(k[i], |k[i]|) * v {
      RowDotConstant(k[i], win[i], |k[i]|, v);
    }
    DotOfScaledRows(k, win, |k|, v);
  }

  /** Over a uniform channel every window entry is the channel's value. */
  lemma UniformWindow(s: seq<byte>, w: nat, h: nat, d: nat, x: int, y: int, c: int, v: byte)
    requires |s| == 4 * w * h && w >= 1 && h >= 1 && 0 <= c < 3 && UniformChannel(s, w, h, c, v)
    ensures ConstantMatrix(Window(s, w, h, d, x, y, c), v as real)
  {
  }

  /** Over a uniform channel, the convolution is the matrix total times the value. */
  lemma ConvOfUniform(s: seq<byte>, w: nat, h: nat, k: seq<seq<real>>, x: int, y: int, c: int, v: byte)
    requires |s| == 4 * w * h && w >= 1 && h >= 1 && 0 <= c < 3 && UniformChannel(s, w, h, c, v)
    requires Square(k)
    ensures Conv(s, w, h, k, x, y, c) == Total(k) * v as real
  {
    UniformWindow(s, w, h, |k|, x, y, c, v);
    DotConstant(k, Window(s, w, h, |k|, x, y, c), v as real);
  }

  /** For a natural number, flooring the real quotient by 3 is integer division by 3. */
  lemma FloorThird(n: nat)
    ensures (n as real / 3.0).Floor == n / 3
  {
    var q := n / 3;
    assert n == 3 * q + n % 3;
    assert q as real <= n as real / 3.0 < q as real + 1.0;
  }

  /**
   * A raster whose colour is the same everywhere comes out of the blur
   * unchanged (made opaque) for any matrix whose entries sum to 1; in
   * grayscale mode it becomes the integer mean of its three channels.
   */
  lemma BlurKeepsUniform(s: seq<byte>, w: nat, h: nat, k: seq<seq<real>>, x: int, y: int, r: byte, g: byte, b: byte)
    requires |s| == 4 * w * h && w >= 1 && h >= 1 && Square(k) && Total(k) == 1.0
    requires UniformChannel(s, w, h, 0, r) && UniformChannel(s, w, h, 1, g) && UniformChannel(s, w, h, 2, b)
    ensures BlurPixel(s, w, h, k, false, x, y) == Rgba(r, g, b, 255)
    ensures BlurPixel(s, w, h, k, true, x, y) == Rgba((r + g + b) / 3, (r + g + b) / 3, (r + g + b) / 3, 255)
  {
    var sr, sg, sb := Conv(s, w, h, k, x, y, 0), Conv(s, w, h, k, x, y, 1), Conv(s, w, h, k, x, y, 2);
    assert sr == r as real by {
      ConvOfUniform(s, w, h, k, x, y, 0, r);
      UnitScale(Total(k), r as real);
    }
    assert sg == g as real by {
      ConvOfUniform(s, w, h, k, x, y, 1, g);
      UnitScale(Total(k), g as real);
    }
    assert sb == b as real by {
      ConvOfUniform(s, w, h, k, x, y, 2, b);
      UnitScale(Total(k), b as real);
    }
    assert (r as real + g as real + b as real) == (r + g + b) as real;
    FloorThird(r + g + b);
  }

  lemma UnitScale(t: real, v: real)
    requires t == 1.0
    ensures t * v == v
  {
  }

  /** A raster whose colour channels are all zero blurs to black, whatever the matrix. */
  lemma BlurOfBlack(s: seq<byte>, w: nat, h: nat, k: seq<seq<real>>, grayscale: bool, x: int, y: int)
    requires |s| == 4 * w * h && w >= 1 && h >= 1 && Square(k)
    requires UniformChannel(s, w, h, 0, 0) && UniformChannel(s, w, h, 1, 0) && UniformChannel(s, w, h, 2, 0)
    ensures BlurPixel(s, w, h, k, grayscale, x, y) == BLACK
  {
    ConvOfUniform(s, w, h, k, x, y, 0, 0);
    ConvOfUniform(s, w, h, k, x, y, 1, 0);
    ConvOfUniform(s, w, h, k, x, y, 2, 0);
  }

  /** The `1 x 1` matrix `[[1]]` copies every pixel, forcing alpha to 255. */
  lemma IdentityBlur(s: seq<byte>, w: nat, h: nat, x: int, y: int)
    requires |s| == 4 * w * h && 0 <= x < w && 0 <= y < h
    ensures BlurPixel(s, w, h, [[1.0]], false, x, y) == Opaque(s, w, h, x, y)
  {
    var k := [[1.0]];
    forall c | 0 <= c < 3
      ensures Conv(s, w, h, k, x, y, c) == Channel(s, w, h, x, y, c) as real
    {
      var win := Window(s, w, h, 1, x, y, c);
      assert win[0][0] == Channel(s, w, h, x, y, c) as real;
      assert RowDot(k[0], win[0], 1) == win[0][0];
      assert Dot(k, win, 1) == win[0][0];
    }
  }

  /** Under non-negative weights a row of products of bytes is between 0 and 255 times the row's weight. */
  lemma {:induction false} RowDotBounds(a: seq<real>, b: seq<real>, n: nat)
    requires n <= |a| && n <= |b|
    requires forall j :: 0 <= j < n ==> a[j] >= 0.0 && 0.0 <= b[j] <= 255.0
    ensures 0.0 <= RowDot(a, b, n) <= 255.0 * RowSum(a, n)
  {
    if n > 0 {
      RowDotBounds(a, b, n - 1);
      assert 0.0 <= a[n - 1] * b[n - 1] <= 255.0 * a[n - 1] by {
        ScaledByteBounds(a[n - 1], b[n - 1]);
      }
      BoundedStep(RowSum(a, n), RowSum(a, n - 1), a[n - 1], RowDot(a, b, n), RowDot(a, b, n - 1), a[n - 1] * b[n - 1]);
    }
  }

  /** One step of a running sum of products, each between 0 and 255 times its weight. */
  lemma BoundedStep(total: real, prev: real, last: real, acc: real, prevAcc: real, lastAcc: real)
    requires total == prev + last && acc == prevAcc + lastAcc
    requires 0.0 <= prevAcc <= 255.0 * prev && 0.0 <= lastAcc <= 255.0 * last
    ensures 0.0 <= acc <= 255.0 * total
  {
  }

  lemma ScaledByteBounds(a: real, v: real)
    requires a >= 0.0 && 0.0 <= v <= 255.0
    ensures 0.0 <= a * v <= 255.0 * a
  {
  }

  /** If every row of products is within its bounds, so is the whole convolution. */
  lemma {:induction false} DotOfBoundedRows(k: seq<seq<real>>, win: seq<seq<real>>, n: nat)
    requires n <= |k| && n <= |win| && forall i :: 0 <= i < n ==> |k[i]| == |win[i]|
    requires forall i :: 0 <= i < n ==> 0.0 <= RowDot(k[i], win[i], |k[i]|) <= 255.0 * RowSum(k[i], |k[i]|)
    ensures 0.0 <= Dot(k, win, n) <= 255.0 * Sum(k, n)
  {
    if n > 0 {
      DotOfBoundedRows(k, win, n - 1);
    }
  }

  /** Under non-negative weights the convolution of a window of bytes is between 0 and 255 times the matrix total. */
  lemma DotBounds(k: seq<seq<real>>, win: seq<seq<real>>)
    requires |k| == |win| && forall i :: 0 <= i < |k| ==> |k[i]| == |win[i]|
    requires NonNegative(k)
    requires forall i, j :: 0 <= i < |win| && 0 <= j < |win[i]| ==> 0.0 <= win[i][j] <= 255.0
    ensures 0.0 <= Dot(k, win, |k|) <= 255.0 * Total(k)
  {
    forall i | 0 <= i < |k| ensures 0.0 <= RowDot(k[i], win[i], |k[i]|) <= 255.0 * RowSum(k[i], |k[i]|) {
      RowDotBounds(k[i], win[i], |k[i]|);
    }
    DotOfBoundedRows(k, win, |k|);
  }

  /** Every window entry is a byte. */
  lemma ByteWindow(s: seq<byte>, w: nat, h: nat, d: nat, x: int, y: int, c: int)
    requires |s| == 4 * w * h && w >= 1 && h >= 1 && 0 <= c < 3
    ensures forall i, j :: 0 <= i < d && 0 <= j < d ==> 0.0 <= Window(s, w, h, d, x, y, c)[i][j] <= 255.0
  {
  }

  /** Under non-negative weights every channel sum is between 0 and 255 times the matrix total. */
  lemma ConvBounds(s: seq<byte>, w: nat, h: nat, k: seq<seq<real>>, x: int, y: int, c: int)
    requires |s| == 4 * w * h && w >= 1 && h >= 1 && 0 <= c < 3
    requires Square(k) && NonNegative(k)
    ensures 0.0 <= Conv(s, w, h, k, x, y, c) <= 255.0 * Total(k)
  {
    ByteWindow(s, w, h, |k|, x, y, c);
    DotBounds(k, Window(s, w, h, |k|, x, y, c));
  }

  /**
   * With non-negative weights summing to 1 every sum lies in `[0, 255]`, so
   * the clamped store never saturates: each channel is the floored sum.
   */
  lemma NormalisedBlurNeverSaturates(s: seq<byte>, w: nat, h: nat, k: seq<seq<real>>, x: int, y: int)
    requires |s| == 4 * w * h && w >= 1 && h >= 1
    requires Square(k) && NonNegative(k) && Total(k) == 1.0
    ensures BlurPixel(s, w, h, k, false, x, y).r == Conv(s, w, h, k, x, y, 0).Floor
    ensures BlurPixel(s, w, h, k, false, x, y).g == Conv(s, w, h, k, x, y, 1).Floor
    ensures BlurPixel(s, w, h, k, false, x, y).b == Conv(s, w, h, k, x, y, 2).Floor
  {
    ConvBounds(s, w, h, k, x, y, 0);
    ConvBounds(s, w, h, k, x, y, 1);
    ConvBounds(s, w, h, k, x, y, 2);
  }

  /** The matrix `createConvolution` builds keeps a uniform raster unchanged. */
  lemma GaussianKeepsUniform(rad: nat, sig: real, powE: real -> real, s: seq<byte>, w: nat, h: nat,
                             x: int, y: int, r: byte, g: byte, b: byte)
    requires sig != 0.0 && JsMath.ExpLike(powE)
    requires |s| == 4 * w * h && w >= 1 && h >= 1
    requires UniformChannel(s, w, h, 0, r) && UniformChannel(s, w, h, 1, g) && UniformChannel(s, w, h, 2, b)
    ensures BlurPixel(s, w, h, GaussianKernel(rad, sig, powE), false, x, y) == Rgba(r, g, b, 255)
  {
    KernelSumsToOne(rad, sig, powE);
    BlurKeepsUniform(s, w, h, GaussianKernel(rad, sig, powE), x, y, r, g, b);
  }

  /** The per-pixel double loop over the matrix: the three sums for pixel `(x, y)`. */
  method Convolve(img: ImageData, convolution: seq<seq<real>>, x: int, y: int) returns (newR: real, newG: real, newB: real)
    requires img.Valid() && img.width >= 1 && img.height >= 1 && Square(convolution)
    ensures newR == Conv(img.data[..], img.width, img.height, convolution, x, y, 0)
    ensures newG == Conv(img.data[..], img.width, img.height, convolution, x, y, 1)
    ensures newB == Conv(img.data[..], img.width, img.height, convolution, x, y, 2)
  {
    ghost var s := img.data[..];
    var w, h := img.width, img.height;
    var convDiam := |convolution|;
    ghost var winR, winG, winB := Window(s, w, h, convDiam, x, y, 0), Window(s, w, h, convDiam, x, y, 1), Window(s, w, h, convDiam, x, y, 2);
    newR, newG, newB := 0.0, 0.0, 0.0;
    var convY := 0;
    while convY < convDiam
      invariant 0 <= convY <= convDiam
      invariant newR == Dot(convolution, winR, convY)
      invariant newG == Dot(convolution, winG, convY)
      invariant newB == Dot(convolution, winB, convY)
    {
      newR, newG, newB := ConvolveRow(img, convolution, x, y, convY, newR, newG, newB);
      convY := convY + 1;
    }
  }

  /** The inner loop of `Convolve`: matrix row `convY` added to the three running sums. */
  method ConvolveRow(img: ImageData, convolution: seq<seq<real>>, x: int, y: int, convY: int, r0: real, g0: real, b0: real)
    returns (newR: real, newG: real, newB: real)
    requires img.Valid() && img.width >= 1 && img.height >= 1 && Square(convolution) && 0 <= convY < |convolution|
    ensures newR == r0 + RowDot(convolution[convY], Window(img.data[..], img.width, img.height, |convolution|, x, y, 0)[convY], |convolution|)
    ensures newG == g0 + RowDot(convolution[convY], Window(img.data[..], img.width, img.height, |convolution|, x, y, 1)[convY], |convolution|)
    ensures newB == b0 + RowDot(convolution[convY], Window(img.data[..], img.width, img.height, |convolution|, x, y, 2)[convY], |convolution|)
  {
    ghost var s := img.data[..];
    var w, h := img.width, img.height;
    var convDiam := |convolution|;
    ghost var rowR, rowG, rowB := Window(s, w, h, convDiam, x, y, 0)[convY], Window(s, w, h, convDiam, x, y, 1)[convY], Window(s, w, h, convDiam, x, y, 2)[convY];
    var weights := convolution[convY];
    newR, newG, newB := r0, g0, b0;
    var cy := Max(0, Min(y + convY - convDiam / 2, h - 1));
    var convX := 0;
    while convX < convDiam
      invariant 0 <= convX <= convDiam
      invariant newR == r0 + RowDot(weights, rowR, convX)
      invariant newG == g0 + RowDot(weights, rowG, convX)
      invariant newB == b0 + RowDot(weights, rowB, convX)
    {
      var pr, pg, pb := SampleAt(img, convDiam, x, y, convY, convX, cy);
      RowDotStep(weights, rowR, convX, pr);
      RowDotStep(weights, rowG, convX, pg);
      RowDotStep(weights, rowB, convX, pb);
      newR := newR + weights[convX] * pr;
      newG := newG + weights[convX] * pg;
      newB := newB + weights[convX] * pb;
      convX := convX + 1;
    }
  }

  /** The red, green and blue bytes read at the clamped point of kernel cell `(convY, convX)`. */
  method SampleAt(img: ImageData, convDiam: nat, x: int, y: int, convY: int, convX: int, cy: int)
    returns (pr: real, pg: real, pb: real)
    requires img.Valid() && img.width >= 1 && img.height >= 1 && 0 <= convY < convDiam && 0 <= convX < convDiam
    requires cy == Max(0, Min(y + convY - convDiam / 2, img.height - 1))
    ensures pr == Window(img.data[..], img.width, img.height, convDiam, x, y, 0)[convY][convX]
    ensures pg == Window(img.data[..], img.width, img.height, convDiam, x, y, 1)[convY][convX]
    ensures pb == Window(img.data[..], img.width, img.height, convDiam, x, y, 2)[convY][convX]
  {
    var w := img.width;
    var cx := Max(0, Min(x + convX - convDiam / 2, w - 1));
    WindowEntry(img.data[..], w, img.height, convDiam, x, y, convY, convX);
    var point := 4 * (cx + cy * w);
    pr, pg, pb := img.data[point] as real, img.data[point + 1] as real, img.data[point + 2] as real;
  }

  /** Adding the next product to a row of products, the sample given by its value. */
  lemma RowDotStep(a: seq<real>, b: seq<real>, n: nat, p: real)
    requires n < |a| && n < |b| && p == b[n]
    ensures RowDot(a, b, n + 1) == RowDot(a, b, n) + a[n] * p
  {
  }

  /** The window entries at `(ky, kx)` are the bytes `gaussianBlur` reads at the clamped point. */
  lemma WindowEntry(s: seq<byte>, w: nat, h: nat, d: nat, x: int, y: int, ky: int, kx: int)
    requires |s| == 4 * w * h && w >= 1 && h >= 1 && 0 <= ky < d && 0 <= kx < d
    ensures var cx, cy := Max(0, Min(x + kx - d / 2, w - 1)), Max(0, Min(y + ky - d / 2, h - 1));
      0 <= 4 * (cx + cy * w) && 4 * (cx + cy * w) + 2 < |s| &&
      Window(s, w, h, d, x, y, 0)[ky][kx] == s[4 * (cx + cy * w)] as real &&
      Window(s, w, h, d, x, y, 1)[ky][kx] == s[4 * (cx + cy * w) + 1] as real &&
      Window(s, w, h, d, x, y, 2)[ky][kx] == s[4 * (cx + cy * w) + 2] as real
  {
    var cx, cy := Max(0, Min(x + kx - d / 2, w - 1)), Max(0, Min(y + ky - d / 2, h - 1));
    PixInRaster(cx, cy, w, h);
  }

  /** `gaussianBlur`: a fresh `ImageData` holding `BlurPixel` at every pixel. */
  method GaussianBlur(img: ImageData, convolution: seq<seq<real>>, grayscale: bool := true) returns (out: ImageData)
    requires img.Valid() && Square(convolution)
    ensures fresh(out) && fresh(out.data) && out.Valid()
    ensures out.width == img.width && out.height == img.height
    ensures IsBlurring(out.data[..], img.data[..], img.width, img.height, convolution, grayscale)
  {
    var w, h := img.width, img.height;
    out := new ImageData(w, h);
    var y := 0;
    while y < h
      invariant 0 <= y <= h && out.Valid() && out.width == w && out.height == h
      invariant forall xx, yy :: 0 <= xx < w && 0 <= yy < y ==>
        PixelAt(out.data[..], w, h, xx, yy) == BlurPixel(img.data[..], w, h, convolution, grayscale, xx, yy)
    {
      BlurRow(img, out, convolution, grayscale, y);
      y := y + 1;
    }
  }

  /** One pass of the `x` loop: row `y` of the output; nothing else changes. */
  method BlurRow(img: ImageData, out: ImageData, convolution: seq<seq<real>>, grayscale: bool, y: int)
    requires img.Valid() && out.Valid() && out.width == img.width && out.height == img.height
    requires Square(convolution) && 0 <= y < img.height && img.data != out.data
    modifies out.data
    ensures forall xx :: 0 <= xx < img.width ==>
      PixelAt(out.data[..], img.width, img.height, xx, y) == BlurPixel(img.data[..], img.width, img.height, convolution, grayscale, xx, y)
    ensures forall xx, yy :: 0 <= xx < img.width && 0 <= yy < img.height && yy != y ==>
      PixelAt(out.data[..], img.width, img.height, xx, yy) == PixelAt(old(out.data[..]), img.width, img.height, xx, yy)
  {
    var w, h := img.width, img.height;
    var x := 0;
    while x < w
      invariant 0 <= x <= w
      invariant forall xx, yy :: 0 <= xx < w && 0 <= yy < h && yy != y ==>
        PixelAt(out.data[..], w, h, xx, yy) == PixelAt(old(out.data[..]), w, h, xx, yy)
      invariant forall xx :: 0 <= xx < x ==>
        PixelAt(out.data[..], w, h, xx, y) == BlurPixel(img.data[..], w, h, convolution, grayscale, xx, y)
    {
      var newR, newG, newB := Convolve(img, convolution, x, y);
      var density := ((newR + newG + newB) / 3.0).Floor;
      var p := if grayscale then Rgba(ClampToByte(density), ClampToByte(density), ClampToByte(density), 255)
               else Rgba(ClampToByte(newR.Floor), ClampToByte(newG.Floor), ClampToByte(newB.Floor), 255);
      PutPixel(out.data, w, h, x, y, p);
      x := x + 1;
    }
  }
}
