/**
 * Which neighbours suppression compares, measured against the gradient.
 *
 * With `magX` = left minus right and `magY` = above minus below, the
 * gradient of a pixel in raster coordinates (x to the right, y downwards)
 * is `(-magX, -magY)`.  Suppression should compare a pixel with the two
 * neighbours across the edge, that is along the gradient.  The angle
 * code `|atan2(magY, magX)|` picks the diagonal from the sign of `magX`
 * alone, so whenever `magY > 0` the two diagonal codes are swapped and the
 * pixels compared lie along the edge instead of across it.  The corrected
 * code measures the gradient line with y pointing up, `atan2(magY, -magX)`,
 * and folds it into `[0, PI)` by adding `PI` rather than by taking `|·|`.
 */
module Orientation {
  import opened JsMath
  import opened Sobel
  import opened Raster
  import NonMax

  function Abs(n: int): nat { if n < 0 then -n else n }

  /** How far the step to the first compared neighbour of `code` goes along the gradient `(-magX, -magY)`. */
  function Projection(magX: int, magY: int, code: int): int {
    var (dx, dy) := NonMax.Offset(code);
    dx * -magX + dy * -magY
  }

  /** The diagonal code other than `code`. */
  function OtherDiagonal(code: int): int {
    if code == 45 then 135 else 45
  }

  /** `code` names the diagonal that lies across the edge (along the gradient) more closely than the other one. */
  predicate DiagonalAcrossEdge(magX: int, magY: int, code: int) {
    Abs(Projection(magX, magY, code)) > Abs(Projection(magX, magY, OtherDiagonal(code)))
  }

  /** The two diagonal codes compare along `(1, -1)` and `(-1, -1)`. */
  lemma DiagonalProjections(magX: int, magY: int)
    ensures Projection(magX, magY, 45) == magY - magX
    ensures Projection(magX, magY, 135) == magX + magY
  {
  }

  /** As written, a diagonal code follows the sign of `magX` whatever the sign of `magY`. */
  lemma AsWrittenDiagonalIgnoresMagY(magX: int, magY: int, atan2: (real, real) -> real)
    requires Atan2Like(atan2)
    ensures AngleCode(magX, magY, atan2) == 45 ==> magX > 0 && magY != 0
    ensures AngleCode(magX, magY, atan2) == 135 ==> magX < 0 && magY != 0
  {
    var t := atan2(magY as real, magX as real);
    assert magY > 0 && magX > 0 ==> 0.0 <= t <= PI / 2.0;
  }

  /**
   * As written, every diagonal code of a gradient with `magY > 0` names the
   * diagonal that lies along the edge rather than across it.
   */
  lemma AsWrittenDiagonalSwapped(magX: int, magY: int, atan2: (real, real) -> real)
    requires Atan2Like(atan2) && magY > 0
    requires AngleCode(magX, magY, atan2) == 45 || AngleCode(magX, magY, atan2) == 135
    ensures !DiagonalAcrossEdge(magX, magY, AngleCode(magX, magY, atan2))
  {
    AsWrittenDiagonalIgnoresMagY(magX, magY, atan2);
    DiagonalProjections(magX, magY);
  }

  /**
   * A 3 by 3 raster whose only non-zero density is 1 at its top-left pixel:
   * at the centre `magX == magY == 1`, the gradient points up and to the
   * left, and with `atan2(1, 1) == PI/4` the code is 45, so suppression
   * compares the north-east and south-west neighbours, which lie along the
   * edge.
   */
  lemma AsWrittenCounterexample(atan2: (real, real) -> real)
    requires atan2(1.0, 1.0) == PI / 4.0
    ensures var s := seq(36, i => if i == 0 then 1 else 0);
      MagX(s, 3, 3, 1, 1) == 1 && MagY(s, 3, 3, 1, 1) == 1
      && SobelAngle(s, 3, 3, atan2, 1, 1) == 45
      && !DiagonalAcrossEdge(1, 1, 45)
  {
    var s: seq<byte> := seq(36, i => if i == 0 then 1 else 0);
    MagXColumns(s, 3, 3, 1, 1);
    MagYRows(s, 3, 3, 1, 1);
    assert Tap(s, 3, 3, 1, 1, 0, 0) == 1;
    assert Tap(s, 3, 3, 1, 1, 1, 0) == 0 && Tap(s, 3, 3, 1, 1, 2, 0) == 0;
    assert Tap(s, 3, 3, 1, 1, 0, 1) == 0 && Tap(s, 3, 3, 1, 1, 0, 2) == 0;
    assert Tap(s, 3, 3, 1, 1, 1, 2) == 0 && Tap(s, 3, 3, 1, 1, 2, 2) == 0 && Tap(s, 3, 3, 1, 1, 2, 1) == 0;
  }

  /** `atan2` of a line folded into `[0, PI]` by adding `PI` to a negative angle. */
  function Fold(t: real): real {
    if t < 0.0 then t + PI else t
  }

  /** The corrected angle code: the gradient line with y pointing up, folded by half turns. */
  function CorrectedAngle(magX: int, magY: int, atan2: (real, real) -> real): (d: byte)
    ensures IsDirection(d)
  {
    QuantizeAngle(Fold(atan2(magY as real, (-magX) as real)))
  }

  /**
   * The corrected code compares across the edge: a diagonal code names the
   * diagonal closer to the gradient, a horizontal gradient compares east and
   * west, and a vertical one north and south.
   */
  lemma CorrectedAcrossEdge(magX: int, magY: int, atan2: (real, real) -> real)
    requires Atan2Like(atan2)
    ensures var d := CorrectedAngle(magX, magY, atan2);
      (d == 45 || d == 135) ==> DiagonalAcrossEdge(magX, magY, d)
    ensures magY == 0 ==> CorrectedAngle(magX, magY, atan2) == 0
    ensures magX == 0 && magY != 0 ==> CorrectedAngle(magX, magY, atan2) == 90
  {
    var t := atan2(magY as real, (-magX) as real);
    assert magY > 0 && magX < 0 ==> 0.0 <= t <= PI / 2.0;
    DiagonalProjections(magX, magY);
    var d := CorrectedAngle(magX, magY, atan2);
    if d == 45 {
      assert magX * magY < 0;
    } else if d == 135 {
      assert magX * magY > 0;
    }
  }

  /** `angles` holds, for every pixel of `g`, the corrected code of its directional totals. */
  predicate IsCorrectedMap(angles: seq<byte>, g: seq<byte>, w: nat, h: nat, atan2: (real, real) -> real)
    requires |g| == 4 * w * h
  {
    |angles| == w * h
    && forall x, y :: 0 <= x < w && 0 <= y < h ==>
      CellAt(angles, w, h, x, y) == CorrectedAngle(MagX(g, w, h, x, y), MagY(g, w, h, x, y), atan2)
  }

  /**
   * Suppression of the magnitude image `m` of `g` under a corrected angle map
   * compares every pixel with its neighbours across the edge: a diagonal
   * code names the diagonal nearer the gradient, a horizontal gradient
   * compares east and west, a vertical one north and south.
   */
  lemma CorrectedSuppressionAcrossEdge(m: seq<byte>, angles: seq<byte>, g: seq<byte>, w: nat, h: nat,
                                       atan2: (real, real) -> real, x: int, y: int)
    requires |g| == 4 * w * h && |m| == 4 * w * h && Atan2Like(atan2) && IsCorrectedMap(angles, g, w, h, atan2)
    requires 0 <= x < w && 0 <= y < h
    ensures var d := CellAt(angles, w, h, x, y);
      var mx, my := MagX(g, w, h, x, y), MagY(g, w, h, x, y);
      NonMax.NmsPixel(m, w, h, angles, x, y)
        == (if NonMax.LocalMax(m, w, h, d, x, y) then Opaque(m, w, h, x, y) else BLACK)
      && ((d == 45 || d == 135) ==> DiagonalAcrossEdge(mx, my, d))
      && (my == 0 ==> NonMax.Offset(d) == (1, 0))
      && (mx == 0 && my != 0 ==> NonMax.Offset(d) == (0, -1))
  {
    CorrectedAcrossEdge(MagX(g, w, h, x, y), MagY(g, w, h, x, y), atan2);
  }
}
