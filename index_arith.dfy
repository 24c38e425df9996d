/** Row-major index arithmetic: the nonlinear facts every flat-buffer
    model needs, proved once. */
module IndexArith {

  /** A row that starts at row index `i < m` ends inside an `m`-row buffer. */
  lemma RowEnd(i: int, m: int, n: int)
    requires 0 <= i < m && 0 <= n
    ensures 0 <= i * n && i * n + n <= m * n
  {
    MulLe(0, i, n);
    MulLe(i + 1, m, n);
    assert (i + 1) * n == i * n + n;
  }

  /** Cell `(i, j)` of an `m x n` row-major buffer lies inside it. */
  lemma CellBound(i: int, j: int, m: int, n: int)
    requires 0 <= i < m && 0 <= j < n
    ensures 0 <= i * n + j < m * n
  {
    RowEnd(i, m, n);
  }

  /** Composing a row and a column and splitting again gives them back. */
  lemma Join(i: int, j: int, n: int)
    requires 0 <= i && 0 <= j < n
    ensures (i * n + j) / n == i && (i * n + j) % n == j
  {
    var q, r := (i * n + j) / n, (i * n + j) % n;
    assert q * n + r == i * n + j && 0 <= r < n;
    Distribute(q, i, n);
    assert (q - i) * n == j - r;
    if q > i {
      MulLe(1, q - i, n);
    } else if q < i {
      MulLe(1, i - q, n);
      Distribute(i, q, n);
    }
  }

  lemma Distribute(a: int, b: int, n: int)
    ensures (a - b) * n == a * n - b * n
  {
  }

  /** Every index of an `m x n` buffer splits into a row and a column. */
  lemma Split(p: int, m: int, n: int)
    requires 0 < n && 0 <= p < m * n
    ensures 0 <= p / n < m && 0 <= p % n < n
    ensures p == (p / n) * n + p % n
  {
  }

  /** Multiplication by a positive count is monotone. */
  lemma MulLe(a: int, b: int, n: int)
    requires 0 <= a <= b && 0 <= n
    ensures a * n <= b * n
  {
    assert b * n - a * n == (b - a) * n;
  }

  lemma MulNonneg(a: int, b: int)
    requires 0 <= a && 0 <= b
    ensures 0 <= a * b
  {
    MulLe(0, a, b);
  }

  lemma MulAssoc(a: int, b: int, c: int)
    ensures (a * b) * c == a * (b * c)
  {
  }

  lemma MulComm3(a: int, b: int, c: int, d: int)
    ensures a * b * c * d == a * c * b * d
  {
    assert a * b * c == a * c * b;
  }
}
