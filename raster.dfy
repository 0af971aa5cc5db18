/**
 * The RGBA raster shared by every stage of the edge detector: an `ImageData`
 * whose `data` is a flat, row-major byte buffer of length `4*w*h`, pixel
 * `(x, y)` starting at index `4*(x + y*w)`.  The buffer is a
 * `Uint8ClampedArray`, so every value stored into it is saturated to 0..255
 * (and, for a non-integer, rounded half to even).
 */
module Raster {

  /** One element of a `Uint8ClampedArray` (or of a `Uint8Array`). */
  type byte = x: int | 0 <= x < 256

  /** One pixel as it sits in four consecutive buffer entries. */
  datatype Rgba = Rgba(r: byte, g: byte, b: byte, a: byte)

  /** The pixel every suppressing branch writes: `(0, 0, 0, 255)`. */
  const BLACK: Rgba := Rgba(0, 0, 0, 255)

  function Min(a: int, b: int): int { if a <= b then a else b }

  function Max(a: int, b: int): int { if a >= b then a else b }

  /** Distance between two integers. */
  function Dist(a: int, b: int): nat { if a >= b then a - b else b - a }

  /** Distance between a real and an integer. */
  function RealDist(a: real, b: int): real { if a >= b as real then a - b as real else b as real - a }

  /**
   * `Math.max(0, Math.min(v, n - 1))`, the edge clamp every stage applies to a
   * sample coordinate: for `n >= 1` it is the point of `[0, n-1]` nearest to `v`.
   */
  function Clamp(v: int, n: int): (c: int)
    ensures n >= 1 ==> 0 <= c < n
    ensures n >= 1 ==> forall d :: 0 <= d < n ==> Dist(v, c) <= Dist(v, d)
  {
    Max(0, Min(v, n - 1))
  }

  /** Linear pixel index `x + y*w` (also the index into an angle map). */
  function Pix(x: int, y: int, w: int): int { x + y * w }

  /** Buffer index of the red channel of pixel `(x, y)`: `4*(x + y*w)`. */
  function Idx(x: int, y: int, w: int): int { 4 * Pix(x, y, w) }

  lemma MulLeft(a: int, b: int, c: int)
    requires a <= b && 0 <= c
    ensures a * c <= b * c
  {
    assert b * c - a * c == (b - a) * c;
  }

  /** Every pixel of a `w` by `h` raster has a linear index below `w*h`. */
  lemma PixInRaster(x: int, y: int, w: int, h: int)
    requires 0 <= x < w && 0 <= y < h
    ensures 0 <= Pix(x, y, w) < w * h
    ensures 0 <= Idx(x, y, w) && Idx(x, y, w) + 3 < 4 * w * h
  {
    MulLeft(0, y, w);
    MulLeft(y + 1, h, w);
    assert (y + 1) * w == y * w + w;
    assert 4 * w * h == 4 * (w * h);
  }

  /** Row-major order: every pixel of an earlier row comes before `(x, y)`. */
  lemma PixEarlierRow(x0: int, y0: int, x: int, y: int, w: int)
    requires 0 <= x0 < w && y0 < y && 0 <= x
    ensures Pix(x0, y0, w) < Pix(x, y, w)
  {
    MulLeft(y0 + 1, y, w);
    assert (y0 + 1) * w == y0 * w + w;
  }

  /** Distinct pixels of a row of width `w` have distinct linear indices. */
  lemma PixInjective(x0: int, y0: int, x: int, y: int, w: int)
    requires 0 <= x0 < w && 0 <= x < w
    requires Pix(x0, y0, w) == Pix(x, y, w)
    ensures x0 == x && y0 == y
  {
    if y0 < y {
      PixEarlierRow(x0, y0, x, y, w);
    } else if y < y0 {
      PixEarlierRow(x, y, x0, y0, w);
    }
  }

  /** Channel `c` (0 red, 1 green, 2 blue, 3 alpha) of pixel `(x, y)` of a `w` by `h` buffer. */
  function Channel(s: seq<byte>, w: int, h: int, x: int, y: int, c: int): byte
    requires |s| == 4 * w * h && 0 <= x < w && 0 <= y < h && 0 <= c < 4
  {
    PixInRaster(x, y, w, h);
    s[Idx(x, y, w) + c]
  }

  /** Red channel of pixel `(x, y)`: the density every stage after the blur reads. */
  function Red(s: seq<byte>, w: int, h: int, x: int, y: int): byte
    requires |s| == 4 * w * h && 0 <= x < w && 0 <= y < h
  {
    Channel(s, w, h, x, y, 0)
  }

  /** Pixel `(x, y)` of a `w` by `h` buffer. */
  function PixelAt(s: seq<byte>, w: int, h: int, x: int, y: int): Rgba
    requires |s| == 4 * w * h && 0 <= x < w && 0 <= y < h
  {
    Rgba(Channel(s, w, h, x, y, 0), Channel(s, w, h, x, y, 1),
         Channel(s, w, h, x, y, 2), Channel(s, w, h, x, y, 3))
  }

  /** Pixel `(x, y)` with its colour kept and alpha forced to 255. */
  function Opaque(s: seq<byte>, w: int, h: int, x: int, y: int): Rgba
    requires |s| == 4 * w * h && 0 <= x < w && 0 <= y < h
  {
    var q := PixelAt(s, w, h, x, y);
    Rgba(q.r, q.g, q.b, 255)
  }

  /** Storing an integer into a `Uint8ClampedArray`: the nearest byte. */
  function ClampToByte(v: int): (b: byte)
    ensures forall c: byte :: Dist(v, b) <= Dist(v, c)
  {
    if v < 0 then 0 else if v > 255 then 255 else v
  }

  /**
   * Storing a (non-NaN) number into a `Uint8ClampedArray`: saturate to
   * 0..255 and round to the nearest integer, ties to the even one.
   */
  function StoreReal(v: real): (b: byte)
    ensures forall c: byte :: RealDist(v, b) <= RealDist(v, c)
    ensures 0.0 <= v <= 255.0 && v == v.Floor as real + 0.5 ==> b % 2 == 0
  {
    if v <= 0.0 then 0
    else if v >= 255.0 then 255
    else
      var f := v.Floor;
      var b: byte := if f as real + 0.5 < v then f + 1
        else if v < f as real + 0.5 then f
        else if f % 2 == 1 then f + 1
        else f;
      RoundIsNearest(v, f, b);
      b
  }

  /** Either neighbour of `v` within one half is as near as any integer. */
  lemma RoundIsNearest(v: real, f: int, b: int)
    requires f as real <= v < f as real + 1.0
    requires b == f || b == f + 1
    requires RealDist(v, b) <= 0.5
    ensures forall c: int :: RealDist(v, b) <= RealDist(v, c)
  {
    forall c: int ensures RealDist(v, b) <= RealDist(v, c) {
      if c <= f {
        assert RealDist(v, c) == v - c as real;
      } else {
        assert RealDist(v, c) == c as real - v;
      }
    }
  }

  /**
   * An `ImageData`: its width, its height and the clamped byte buffer.
   * `new ImageData(w, h)` allocates a zero-filled buffer of `4*w*h` bytes.
   */
  class ImageData {
    const width: nat
    const height: nat
    const data: array<byte>

    predicate Valid() {
      data.Length == 4 * width * height
    }

    constructor (w: nat, h: nat)
      ensures width == w && height == h
      ensures fresh(data) && Valid()
      ensures forall i :: 0 <= i < data.Length ==> data[i] == 0
    {
      width := w;
      height := h;
      data := new byte[4 * w * h](_ => 0);
    }
  }

  /** The four stores `outPx[point] = r; … outPx[point + 3] = a` of one pixel. */
  method PutPixel(data: array<byte>, w: int, h: int, x: int, y: int, p: Rgba)
    requires data.Length == 4 * w * h && 0 <= x < w && 0 <= y < h
    modifies data
    ensures PixelAt(data[..], w, h, x, y) == p
    ensures forall xx, yy :: 0 <= xx < w && 0 <= yy < h && (xx != x || yy != y) ==>
      PixelAt(data[..], w, h, xx, yy) == PixelAt(old(data[..]), w, h, xx, yy)
  {
    PixInRaster(x, y, w, h);
    var point := Idx(x, y, w);
    data[point] := p.r;
    data[point + 1] := p.g;
    data[point + 2] := p.b;
    data[point + 3] := p.a;
    forall xx, yy | 0 <= xx < w && 0 <= yy < h && (xx != x || yy != y)
      ensures PixelAt(data[..], w, h, xx, yy) == PixelAt(old(data[..]), w, h, xx, yy)
    {
      PixInRaster(xx, yy, w, h);
      if Pix(xx, yy, w) == Pix(x, y, w) {
        PixInjective(xx, yy, x, y, w);
      }
    }
  }

  /** Entry `x + y*w` of a per-pixel map such as the gradient angles (a `Uint8Array` of length `w*h`). */
  function CellAt(m: seq<byte>, w: int, h: int, x: int, y: int): byte
    requires |m| == w * h && 0 <= x < w && 0 <= y < h
  {
    PixInRaster(x, y, w, h);
    m[Pix(x, y, w)]
  }

  /** The store `m[x + y*w] = v` into a per-pixel map. */
  method PutCell(m: array<byte>, w: int, h: int, x: int, y: int, v: byte)
    requires m.Length == w * h && 0 <= x < w && 0 <= y < h
    modifies m
    ensures CellAt(m[..], w, h, x, y) == v
    ensures forall xx, yy :: 0 <= xx < w && 0 <= yy < h && (xx != x || yy != y) ==>
      CellAt(m[..], w, h, xx, yy) == CellAt(old(m[..]), w, h, xx, yy)
  {
    PixInRaster(x, y, w, h);
    m[x + y * w] := v;
    forall xx, yy | 0 <= xx < w && 0 <= yy < h && (xx != x || yy != y)
      ensures CellAt(m[..], w, h, xx, yy) == CellAt(old(m[..]), w, h, xx, yy)
    {
      PixInRaster(xx, yy, w, h);
      if Pix(xx, yy, w) == Pix(x, y, w) {
        PixInjective(xx, yy, x, y, w);
      }
    }
  }
}
