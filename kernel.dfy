/**
 * `createConvolution(rad, sig)`: the `(2*rad+1)` by `(2*rad+1)` Gaussian
 * matrix, each raw weight divided by the total of all raw weights.
 */
module Kernel {
  import opened JsMath

  /** Sum of the first `n` entries of a row, accumulated left to right. */
  function RowSum(row: seq<real>, n: nat): real
    requires n <= |row|
  {
    if n == 0 then 0.0 else RowSum(row, n - 1) + row[n - 1]
  }

  /** Sum of every entry of the first `n` rows of a matrix, accumulated row by row. */
  function Sum(k: seq<seq<real>>, n: nat): real
    requires n <= |k|
  {
    if n == 0 then 0.0 else Sum(k, n - 1) + RowSum(k[n - 1], |k[n - 1]|)
  }

  /** Sum of every entry of a matrix. */
  function Total(k: seq<seq<real>>): real {
    Sum(k, |k|)
  }

  /** All entries of `k` are non-negative. */
  predicate NonNegative(k: seq<seq<real>>) {
    forall i, j :: 0 <= i < |k| && 0 <= j < |k[i]| ==> k[i][j] >= 0.0
  }

  /** Every entry of `k` divided by the total of `k`. */
  function Normalize(k: seq<seq<real>>): seq<seq<real>>
    requires Total(k) != 0.0
  {
    seq(|k|, i requires 0 <= i < |k| => seq(|k[i]|, j requires 0 <= j < |k[i]| => k[i][j] / Total(k)))
  }

  /** A sum of non-negative entries is non-negative. */
  lemma {:induction false} RowSumNonNegative(row: seq<real>, n: nat)
    requires n <= |row| && forall m :: 0 <= m < n ==> row[m] >= 0.0
    ensures RowSum(row, n) >= 0.0
  {
    if n > 0 {
      RowSumNonNegative(row, n - 1);
    }
  }

  /** A sum of non-negative entries is at least each of them. */
  lemma {:induction false} RowSumAtLeast(row: seq<real>, n: nat, j: int)
    requires n <= |row| && forall m :: 0 <= m < n ==> row[m] >= 0.0
    requires 0 <= j < n
    ensures RowSum(row, n) >= row[j]
  {
    if j < n - 1 {
      RowSumAtLeast(row, n - 1, j);
    } else {
      RowSumNonNegative(row, n - 1);
    }
  }

  lemma {:induction false} SumNonNegative(k: seq<seq<real>>, n: nat)
    requires n <= |k| && NonNegative(k)
    ensures Sum(k, n) >= 0.0
  {
    if n > 0 {
      SumNonNegative(k, n - 1);
      RowSumNonNegative(k[n - 1], |k[n - 1]|);
    }
  }

  /** The total of a non-negative matrix is at least each entry. */
  lemma {:induction false} SumAtLeast(k: seq<seq<real>>, n: nat, i: int, j: int)
    requires n <= |k| && NonNegative(k)
    requires 0 <= i < n && 0 <= j < |k[i]|
    ensures Sum(k, n) >= k[i][j]
  {
    if i < n - 1 {
      SumAtLeast(k, n - 1, i, j);
      RowSumNonNegative(k[n - 1], |k[n - 1]|);
    } else {
      RowSumAtLeast(k[i], |k[i]|, j);
      SumNonNegative(k, n - 1);
    }
  }

  lemma DivideAdd(a: real, b: real, d: real)
    requires d != 0.0
    ensures a / d + b / d == (a + b) / d
  {
  }

  /** Dividing every entry of a row by `d` divides its sum by `d`. */
  lemma {:induction false} RowSumDivide(row: seq<real>, q: seq<real>, n: nat, d: real)
    requires d != 0.0 && n <= |q| && n <= |row|
    requires forall j :: 0 <= j < n ==> q[j] == row[j] / d
    ensures RowSum(q, n) == RowSum(row, n) / d
  {
    if n > 0 {
      RowSumDivide(row, q, n - 1, d);
      DivideAdd(RowSum(row, n - 1), row[n - 1], d);
    }
  }

  /** Dividing every entry of a matrix by `d` divides its total by `d`. */
  lemma {:induction false} SumDivide(k: seq<seq<real>>, q: seq<seq<real>>, n: nat, d: real)
    requires d != 0.0 && n <= |q| && n <= |k|
    requires forall i :: 0 <= i < n ==> |q[i]| == |k[i]|
    requires forall i, j :: 0 <= i < n && 0 <= j < |k[i]| ==> q[i][j] == k[i][j] / d
    ensures Sum(q, n) == Sum(k, n) / d
  {
    if n > 0 {
      SumDivide(k, q, n - 1, d);
      RowSumDivide(k[n - 1], q[n - 1], |k[n - 1]|, d);
      DivideAdd(Sum(k, n - 1), RowSum(k[n - 1], |k[n - 1]|), d);
    }
  }

  lemma SelfQuotient(a: real)
    requires a != 0.0
    ensures a / a == 1.0
  {
  }

  /** A normalised matrix sums to exactly 1 (over the reals). */
  lemma NormalizeSumsToOne(k: seq<seq<real>>)
    requires Total(k) != 0.0
    ensures Total(Normalize(k)) == 1.0
  {
    SumDivide(k, Normalize(k), |k|, Total(k));
    SelfQuotient(Total(k));
  }

  /** `2*rad + 1`. */
  function Size(rad: nat): nat { 2 * rad + 1 }

  /** `1 / (2*PI*sig^2)`, the Gaussian's leading factor. */
  function Factor(sig: real): real
    requires sig != 0.0
  {
    1.0 / (2.0 * PI * sig * sig)
  }

  /** The exponent `-(x^2 + y^2) / (2*sig^2)`. */
  function Exponent(x: int, y: int, sig: real): real
    requires sig != 0.0
  {
    -((x * x + y * y) as real) / (2.0 * sig * sig)
  }

  /** `a * b * b > 0` for `a > 0`, `b != 0`. */
  lemma ScaledSquarePositive(a: real, b: real)
    requires a > 0.0 && b != 0.0
    ensures a * b * b > 0.0
  {
    if b < 0.0 {
      assert a * b * b == a * (-b) * (-b);
    }
  }

  lemma InverseScaledSquarePositive(a: real, b: real)
    requires a > 0.0 && b != 0.0
    ensures 1.0 / (a * b * b) > 0.0
  {
    ScaledSquarePositive(a, b);
  }

  lemma FactorPositive(sig: real)
    requires sig != 0.0
    ensures Factor(sig) > 0.0
  {
    InverseScaledSquarePositive(2.0 * PI, sig);
  }

  lemma ProductPositive(a: real, b: real)
    requires a > 0.0 && b > 0.0
    ensures a * b > 0.0
  {
  }

  /**
   * Raw weight of row `i`, column `j`, i.e. of the offset `x = j - rad`,
   * `y = i - rad`: `1/(2*PI*sig^2) * e^(-(x^2 + y^2)/(2*sig^2))`.
   */
  function RawWeight(rad: nat, sig: real, powE: real -> real, i: int, j: int): real
    requires sig != 0.0
  {
    Factor(sig) * powE(Exponent(j - rad, i - rad, sig))
  }

  /** Every raw weight is positive. */
  lemma RawWeightPositive(rad: nat, sig: real, powE: real -> real, i: int, j: int)
    requires sig != 0.0 && ExpLike(powE)
    ensures RawWeight(rad, sig, powE, i, j) > 0.0
  {
    FactorPositive(sig);
    ProductPositive(Factor(sig), powE(Exponent(j - rad, i - rad, sig)));
  }

  /** The matrix of raw weights, before normalisation. */
  function RawKernel(rad: nat, sig: real, powE: real -> real): (k: seq<seq<real>>)
    requires sig != 0.0
    ensures |k| == Size(rad)
    ensures forall i :: 0 <= i < |k| ==> |k[i]| == Size(rad)
    ensures forall i, j :: 0 <= i < |k| && 0 <= j < |k[i]| ==> k[i][j] == RawWeight(rad, sig, powE, i, j)
  {
    seq(Size(rad), i => seq(Size(rad), j => RawWeight(rad, sig, powE, i, j)))
  }

  /** Every raw weight is positive, so the normalising total is positive. */
  lemma RawTotalPositive(rad: nat, sig: real, powE: real -> real)
    requires sig != 0.0 && ExpLike(powE)
    ensures NonNegative(RawKernel(rad, sig, powE))
    ensures Total(RawKernel(rad, sig, powE)) > 0.0
  {
    var k := RawKernel(rad, sig, powE);
    forall i, j | 0 <= i < |k| && 0 <= j < |k[i]| ensures k[i][j] >= 0.0 {
      RawWeightPositive(rad, sig, powE, i, j);
    }
    RawWeightPositive(rad, sig, powE, 0, 0);
    SumAtLeast(k, |k|, 0, 0);
  }

  /** The normalised Gaussian kernel `createConvolution` returns. */
  function GaussianKernel(rad: nat, sig: real, powE: real -> real): (k: seq<seq<real>>)
    requires sig != 0.0 && ExpLike(powE)
    ensures |k| == Size(rad)
    ensures forall i :: 0 <= i < |k| ==> |k[i]| == Size(rad)
  {
    RawTotalPositive(rad, sig, powE);
    Normalize(RawKernel(rad, sig, powE))
  }

  /** The kernel sums to exactly 1 (over the reals). */
  lemma KernelSumsToOne(rad: nat, sig: real, powE: real -> real)
    requires sig != 0.0 && ExpLike(powE)
    ensures Total(GaussianKernel(rad, sig, powE)) == 1.0
  {
    RawTotalPositive(rad, sig, powE);
    NormalizeSumsToOne(RawKernel(rad, sig, powE));
  }

  /** Every kernel entry is positive. */
  lemma KernelPositive(rad: nat, sig: real, powE: real -> real, i: int, j: int)
    requires sig != 0.0 && ExpLike(powE)
    requires 0 <= i < Size(rad) && 0 <= j < Size(rad)
    ensures GaussianKernel(rad, sig, powE)[i][j] > 0.0
  {
    RawTotalPositive(rad, sig, powE);
    RawWeightPositive(rad, sig, powE, i, j);
    var raw := RawKernel(rad, sig, powE);
    QuotientPositive(raw[i][j], Total(raw));
  }

  lemma QuotientPositive(a: real, d: real)
    requires a > 0.0 && d > 0.0
    ensures a / d > 0.0
  {
  }

  /** Radius 0 degenerates to the identity kernel `[[1]]`. */
  lemma RadiusZeroIsIdentity(sig: real, powE: real -> real)
    requires sig != 0.0 && ExpLike(powE)
    ensures GaussianKernel(0, sig, powE) == [[1.0]]
  {
    var raw := RawKernel(0, sig, powE);
    RawTotalPositive(0, sig, powE);
    assert RowSum(raw[0], 1) == raw[0][0];
    assert Total(raw) == Sum(raw, 0) + RowSum(raw[0], 1);
    SelfQuotient(raw[0][0]);
    var g := GaussianKernel(0, sig, powE);
    assert g[0][0] == raw[0][0] / Total(raw);
    assert g[0] == [1.0];
  }

  /** The exponent depends on `x^2 + y^2` only. */
  lemma ExponentSymmetric(x: int, y: int, sig: real)
    requires sig != 0.0
    ensures Exponent(x, y, sig) == Exponent(y, x, sig)
    ensures Exponent(x, y, sig) == Exponent(-x, y, sig)
  {
    assert x * x + y * y == y * y + x * x;
    assert (-x) * (-x) == x * x;
  }

  /**
   * The kernel is symmetric under swapping rows with columns and under
   * mirroring rows or columns.
   */
  lemma KernelSymmetric(rad: nat, sig: real, powE: real -> real, i: int, j: int)
    requires sig != 0.0 && ExpLike(powE)
    requires 0 <= i < Size(rad) && 0 <= j < Size(rad)
    ensures GaussianKernel(rad, sig, powE)[i][j] == GaussianKernel(rad, sig, powE)[j][i]
    ensures GaussianKernel(rad, sig, powE)[i][j] == GaussianKernel(rad, sig, powE)[2 * rad - i][j]
    ensures GaussianKernel(rad, sig, powE)[i][j] == GaussianKernel(rad, sig, powE)[i][2 * rad - j]
  {
    var x, y := j - rad, i - rad;
    ExponentSymmetric(x, y, sig);
    ExponentSymmetric(y, x, sig);
    assert 2 * rad - i - rad == -y && 2 * rad - j - rad == -x;
    assert RawWeight(rad, sig, powE, i, j) == RawWeight(rad, sig, powE, j, i);
    assert RawWeight(rad, sig, powE, i, j) == RawWeight(rad, sig, powE, 2 * rad - i, j);
    assert RawWeight(rad, sig, powE, i, j) == RawWeight(rad, sig, powE, i, 2 * rad - j);
  }

  /**
   * `createConvolution`: the first double loop fills `conv` with raw weights
   * while accumulating `sum`; the second divides every entry by `sum` in place.
   */
  method CreateConvolution(rad: nat, sig: real, powE: real -> real) returns (conv: seq<seq<real>>)
    requires sig != 0.0 && ExpLike(powE)
    ensures conv == GaussianKernel(rad, sig, powE)
  {
    var sum;
    conv, sum := FillRawWeights(rad, sig, powE);
    RawTotalPositive(rad, sig, powE);
    conv := DivideAll(conv, sum);
  }

  /** The first double loop of `createConvolution`: rows of raw weights and their running total. */
  method FillRawWeights(rad: nat, sig: real, powE: real -> real) returns (conv: seq<seq<real>>, sum: real)
    requires sig != 0.0
    ensures conv == RawKernel(rad, sig, powE) && sum == Total(conv)
  {
    var size := 2 * rad + 1;
    ghost var raw := RawKernel(rad, sig, powE);
    conv := [];
    sum := 0.0;

    var i: int, y: int := 0, -(rad as int);
    while i < size
      invariant 0 <= i <= size && y == i - rad
      invariant conv == raw[..i]
      invariant sum == Sum(raw, i)
    {
      var row;
      row, sum := FillRow(rad, sig, powE, i, y, sum);
      assert conv + [row] == raw[..i + 1];
      conv := conv + [row];
      i, y := i + 1, y + 1;
    }
    assert conv == raw;
  }

  /** One pass of the inner loop: row `i` (offset `y`) of raw weights, each added to `sum`. */
  method FillRow(rad: nat, sig: real, powE: real -> real, i: int, y: int, sum0: real) returns (row: seq<real>, sum: real)
    requires sig != 0.0 && 0 <= i < Size(rad) && y == i - rad
    ensures row == RawKernel(rad, sig, powE)[i]
    ensures sum == sum0 + RowSum(row, |row|)
  {
    var size := 2 * rad + 1;
    ghost var raw := RawKernel(rad, sig, powE)[i];
    row := [];
    sum := sum0;
    var j: int, x: int := 0, -(rad as int);
    while j < size
      invariant 0 <= j <= size && x == j - rad
      invariant row == raw[..j]
      invariant sum == sum0 + RowSum(raw, j)
    {
      var weight := Factor(sig) * powE(Exponent(x, y, sig));
      assert raw[j] == weight;
      assert row + [weight] == raw[..j + 1];
      row := row + [weight];
      sum := sum + weight;
      j, x := j + 1, x + 1;
    }
    assert row == raw;
  }

  /** The second double loop of `createConvolution`: every entry divided by `sum`. */
  method DivideAll(k: seq<seq<real>>, sum: real) returns (conv: seq<seq<real>>)
    requires sum == Total(k) && sum != 0.0
    ensures conv == Normalize(k)
  {
    ghost var norm := Normalize(k);
    conv := k;
    var i := 0;
    while i < |conv|
      invariant 0 <= i <= |conv| && |conv| == |k|
      invariant forall m :: 0 <= m < i ==> conv[m] == norm[m]
      invariant forall m :: i <= m < |k| ==> conv[m] == k[m]
    {
      var j := 0;
      while j < |conv[i]|
        invariant |conv| == |k| && 0 <= j <= |conv[i]|
        invariant forall m :: 0 <= m < i ==> conv[m] == norm[m]
        invariant forall m :: i < m < |k| ==> conv[m] == k[m]
        invariant |conv[i]| == |k[i]|
        invariant conv[i][..j] == norm[i][..j]
        invariant conv[i][j..] == k[i][j..]
      {
        conv := conv[i := conv[i][j := conv[i][j] / sum]];
        j := j + 1;
      }
      assert conv[i] == conv[i][..|conv[i]|] == norm[i][..|conv[i]|] == norm[i];
      i := i + 1;
    }
    assert conv == norm;
  }
}
