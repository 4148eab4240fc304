// Arithmetic helpers shared by the analysis classes: the C++ casts from
// floating point to integer truncate toward zero, which differs from
// Dafny's Floor for negative values.
module Numeric {

  function Abs(x: real): (r: real)
    ensures r >= 0.0 && (r == x || r == -x)
  {
    if x < 0.0 then -x else x
  }

  function Max(a: int, b: int): int { if a < b then b else a }
  function Min(a: int, b: int): int { if a < b then a else b }

  /** Conversion of a floating-point value to an integer type: truncation
      toward zero (bounds in TruncBounds). */
  function Trunc(x: real): int
  {
    if x >= 0.0 then x.Floor else -((-x).Floor)
  }

  /** Truncation moves a value toward zero by less than 1. */
  lemma TruncBounds(x: real)
    ensures x >= 0.0 ==> 0 <= Trunc(x) && Trunc(x) as real <= x < Trunc(x) as real + 1.0
    ensures x < 0.0 ==> Trunc(x) <= 0 && Trunc(x) as real - 1.0 < x <= Trunc(x) as real
  {
  }

  /** Fractional part x - (long)x. */
  function Frac(x: real): (f: real)
    ensures x >= 0.0 ==> 0.0 <= f < 1.0
    ensures x >= 0.0 ==> x - f == x.Floor as real
  {
    TruncBounds(x);
    x - Trunc(x) as real
  }

  /** A value in [0, 2n) reduced modulo n. */
  lemma ModWrap(x: int, n: int)
    requires n > 0 && 0 <= x < 2 * n
    ensures x % n == if x >= n then x - n else x
  {
    if x >= n {
      assert x == n + (x - n);
    }
  }

  // Facts about multiplication and division by a positive size, used for
  // byte offsets that are multiples of the sample size.

  lemma MulLe(a: int, b: int, n: int)
    requires a <= b && n >= 0
    ensures a * n <= b * n
  {
    assert b * n - a * n == (b - a) * n;
  }

  lemma RealMulLe(a: real, b: real, c: real)
    requires a <= b && c > 0.0
    ensures a * c <= b * c
  {
    assert b * c - a * c == (b - a) * c;
  }

  lemma RealMulLt(a: real, b: real, c: real)
    requires a < b && c > 0.0
    ensures a * c < b * c
  {
    assert b * c - a * c == (b - a) * c;
  }

  lemma MulDiv(x: int, d: int)
    requires d > 0
    ensures (x * d) / d == x && (x * d) % d == 0
  {
    var q, r := (x * d) / d, (x * d) % d;
    assert x * d == q * d + r && 0 <= r < d;
    assert (x - q) * d == r;
    if x - q > 0 {
      MulLe(1, x - q, d);
    } else if x - q < 0 {
      MulLe(x - q, -1, d);
    }
  }

  lemma MulCancel(a: int, b: int, n: int)
    requires n > 0 && a * n <= b * n
    ensures a <= b
  {
    if a > b { assert (b + 1) * n == b * n + n; MulLe(b + 1, a, n); }
  }

  lemma SumDiv(pos: int, bytes: int, size: int)
    requires size > 0 && pos % size == 0 && bytes % size == 0
    ensures (pos + bytes) % size == 0 && (pos + bytes) / size == pos / size + bytes / size
  {
    var a, b := pos / size, bytes / size;
    assert pos == a * size && bytes == b * size;
    assert pos + bytes == (a + b) * size;
    MulDiv(a + b, size);
  }

  lemma DiffDiv(x: int, y: int, size: int)
    requires size > 0 && x % size == 0 && y % size == 0
    ensures (x - y) % size == 0
  {
    var a, b := x / size, y / size;
    assert x == a * size && y == b * size;
    assert x - y == (a - b) * size;
    MulDiv(a - b, size);
  }

  lemma DivLe(x: int, y: int, size: int)
    requires size > 0 && x % size == 0 && y % size == 0 && x <= y
    ensures x / size <= y / size
  {
    var a, b := x / size, y / size;
    assert x == a * size && y == b * size;
    MulCancel(a, b, size);
  }

  /** Whole frames of nCh * nPol samples of `size` bytes in `bytes`, times
      the samples per frame, fit in the samples of `bytes`. */
  lemma QuotientFits(bytes: int, nCh: int, nPol: int, size: int)
    requires bytes >= 0 && nCh > 0 && nPol > 0 && size > 0 && bytes % size == 0
    ensures 0 <= bytes / (size * nCh * nPol)
    ensures nCh * nPol * (bytes / (size * nCh * nPol)) <= bytes / size
  {
    var fw := nCh * nPol;
    MulLe(1, nCh, nPol);
    MulLe(1, fw, size);
    assert size * nCh * nPol == fw * size;
    var q := bytes / (fw * size);
    var w := bytes / size;
    assert q * (fw * size) <= bytes;
    assert bytes == w * size;
    assert (fw * q) * size == q * (fw * size);
    MulCancel(fw * q, w, size);
  }

  /** Bytes [pos, pos + bytes) of a file of `words` samples of `size` bytes,
      all on sample boundaries, are samples [pos / size, (pos + bytes) / size). */
  lemma SliceBounds(pos: int, bytes: int, words: int, size: int)
    requires size > 0 && 0 <= pos && 0 <= bytes && pos + bytes <= words * size
    requires pos % size == 0 && bytes % size == 0
    ensures (pos + bytes) % size == 0
    ensures 0 <= pos / size <= (pos + bytes) / size <= words
    ensures (pos + bytes) / size - pos / size == bytes / size
  {
    SumDiv(pos, bytes, size);
    MulDiv(words, size);
    DivLe(pos + bytes, words * size, size);
    assert bytes == (bytes / size) * size;
    if bytes / size < 0 {
      MulLe(bytes / size, -1, size);
    }
  }

  /** Sample (t, c) of a block with n channels is word t*n+c, inside the
      block of len samples. */
  lemma FrameIndex(t: int, c: int, n: int, len: int)
    requires 0 <= t < len && 0 <= c < n
    ensures 0 <= t * n + c < len * n
  {
    MulLe(t + 1, len, n);
    assert (t + 1) * n == t * n + n;
    MulLe(0, t, n);
  }

  /** Word q of a layout of len rows of n words lies in row q / n. */
  lemma RowOf(q: int, n: int, len: int)
    requires n >= 0 && 0 <= q < len * n
    ensures n > 0 && 0 <= q / n < len
  {
    if n > 0 && q / n >= len {
      MulLe(len, q / n, n);
    }
  }

  /** A fraction whose numerator lies between 0 and its positive denominator
      lies in [0, 1]. */
  lemma FractionBound(a: real, b: real)
    requires 0.0 <= a <= b && b > 0.0
    ensures 0.0 <= a / b <= 1.0
  {
    assert a / b * b == a;
  }

  /** Word q of row i, in a layout of rows of n words, is column q - i*n of
      row i. */
  lemma RowPosition(q: int, i: int, n: int)
    requires n > 0 && 0 <= i && i * n <= q < i * n + n
    ensures q / n == i && q % n == q - i * n
  {
    var d, r := q / n, q % n;
    assert q == d * n + r && 0 <= r < n;
    if d < i {
      assert (d + 1) * n == d * n + n;
      MulLe(d + 1, i, n);
    } else if d > i {
      assert (i + 1) * n == i * n + n;
      MulLe(i + 1, d, n);
    }
  }

  /** Row i of a layout of len rows of n words lies inside the layout. */
  lemma RowInside(i: int, n: int, len: int)
    requires 0 <= i < len && n >= 0
    ensures 0 <= i * n && i * n + n <= len * n
    ensures (i + 1) * n == i * n + n
  {
    MulLe(0, i, n);
    MulLe(i + 1, len, n);
    assert (i + 1) * n == i * n + n;
  }
}
