/** The value a `tensor.Tensor` wraps: a shape and a row-major ('c' order)
    buffer of elements. ND4J's reshape in 'c' order keeps the buffer and
    replaces the shape, so it is modelled exactly that way. */
module TensorData {
  import opened Wrappers
  import opened IndexArith

  type Shape = seq<nat>

  /** Number of elements of a shape (1 for rank 0). */
  function Product(s: Shape): nat
  {
    if |s| == 0 then 1 else Product(s[..|s| - 1]) * s[|s| - 1]
  }

  lemma ProductAppend(s: Shape, x: nat)
    ensures Product(s + [x]) == Product(s) * x
  {
    assert (s + [x])[..|s|] == s;
  }

  lemma ProductPrefixStep(s: Shape, i: nat)
    requires i < |s|
    ensures Product(s[..i + 1]) == Product(s[..i]) * s[i]
  {
    assert s[..i + 1][..i] == s[..i];
  }

  lemma ProductRank2(s: Shape)
    requires |s| == 2
    ensures Product(s) == s[0] * s[1]
  {
    assert s[..1][..0] == [];
    assert Product(s[..1]) == s[0];
  }

  /** The last two axes split off the product: `[..., M, K]` holds
      `Product(leading) * M * K` elements. */
  lemma ProductLastTwo(s: Shape)
    requires |s| >= 2
    ensures Product(s) == Product(s[..|s| - 2]) * s[|s| - 2] * s[|s| - 1]
  {
    var r := |s|;
    assert s[..r - 1][..r - 2] == s[..r - 2];
  }

  lemma ProductLastThree(s: Shape)
    requires |s| >= 3
    ensures Product(s) == Product(s[..|s| - 3]) * s[|s| - 3] * s[|s| - 2] * s[|s| - 1]
  {
    var r := |s|;
    ProductLastTwo(s);
    assert s[..r - 2][..r - 3] == s[..r - 3];
  }

  lemma ProductRank3(s: Shape)
    requires |s| == 3
    ensures Product(s) == s[0] * s[1] * s[2]
  {
    ProductLastTwo(s);
    assert s[..1][..0] == [];
  }

  lemma ProductRank4(s: Shape)
    requires |s| == 4
    ensures Product(s) == s[0] * s[1] * s[2] * s[3]
  {
    ProductLastThree(s);
    assert s[..1][..0] == [];
  }

  datatype Tensor = Tensor(shape: Shape, data: seq<real>)

  predicate WellFormed(t: Tensor)
  {
    |t.data| == Product(t.shape)
  }

  /** `Tensor.zeros`, `Tensor.ones`, `Tensor.fill`. */
  function Fill(v: real, shape: Shape): Tensor
  {
    Tensor(shape, seq(Product(shape), _ => v))
  }

  /** ND4J reshape: same buffer, new shape; a size mismatch is rejected. */
  function Reshape(t: Tensor, shape: Shape): Result<Tensor>
  {
    if Product(shape) == |t.data| then Ok(Tensor(shape, t.data)) else Err(LibraryShape)
  }

  /** Elementwise sum of two tensors of one shape (broadcasting is not modelled). */
  function Add(a: Tensor, b: Tensor): Result<Tensor>
    requires WellFormed(a) && WellFormed(b)
  {
    if a.shape != b.shape then Err(LibraryShape)
    else Ok(Tensor(a.shape, seq(|a.data|, i requires 0 <= i < |a.data| => a.data[i] + b.data[i])))
  }

  /** Elementwise product of two tensors of one shape. */
  function Mul(a: Tensor, b: Tensor): Result<Tensor>
    requires WellFormed(a) && WellFormed(b)
  {
    if a.shape != b.shape then Err(LibraryShape)
    else Ok(Tensor(a.shape, seq(|a.data|, i requires 0 <= i < |a.data| => a.data[i] * b.data[i])))
  }

  /** Every element times a scalar. */
  function Scale(t: Tensor, s: real): Tensor
  {
    Tensor(t.shape, seq(|t.data|, i requires 0 <= i < |t.data| => t.data[i] * s))
  }

  /** Java's `(int)` cast of a double: truncation toward zero (saturation at
      the bounds of `int` is not modelled). */
  function Truncate(x: real): int
  {
    if x >= 0.0 then x.Floor else -((-x).Floor)
  }

  /** `getInt(i, j)` / `(int) getDouble(i, j)` of a rank-2 tensor. */
  function IdAt(t: Tensor, i: nat, j: nat): int
    requires WellFormed(t) && |t.shape| == 2 && i < t.shape[0] && j < t.shape[1]
  {
    ProductRank2(t.shape);
    CellBound(i, j, t.shape[0], t.shape[1]);
    Truncate(t.data[i * t.shape[1] + j])
  }

  /** `new Tensor(a)` for a freshly filled `[m, n]` buffer. */
  function FromArray2(a: array2<real>): (t: Tensor)
    reads a
    ensures WellFormed(t) && t.shape == [a.Length0, a.Length1]
  {
    var m, n := a.Length0, a.Length1;
    ProductRank2([m, n]);
    Tensor([m, n], seq(m * n, p requires 0 <= p < m * n reads a => Split(p, m, n); a[p / n, p % n]))
  }

  lemma FromArray2At(a: array2<real>, i: nat, j: nat)
    requires i < a.Length0 && j < a.Length1
    ensures CellIndexOk(i, j, a.Length0, a.Length1)
    ensures FromArray2(a).data[i * a.Length1 + j] == a[i, j]
  {
    CellBound(i, j, a.Length0, a.Length1);
    Join(i, j, a.Length1);
  }

  predicate CellIndexOk(i: int, j: int, m: int, n: int)
  {
    0 <= i * n + j < m * n
  }

  /** Block `b` of `n` consecutive elements (`INDArray.slice(b)` of a
      `[B, ...]` buffer whose trailing axes hold `n` elements). */
  function Chunk(s: seq<real>, n: nat, b: nat): (c: seq<real>)
    requires b * n + n <= |s|
    ensures |c| == n
  {
    s[b * n .. b * n + n]
  }

  /** Entry `(i, j)` of block `b` of a sequence of stacked products. */
  lemma StackedEntry(y: seq<real>, a: seq<real>, w: seq<real>, m: nat, k: nat, n: nat, b: nat, i: nat, j: nat)
    requires b * (m * k) + m * k <= |a| && b * (k * n) + k * n <= |w| && b * (m * n) + m * n <= |y|
    requires i < m && j < n
    requires Chunk(y, m * n, b) == MatMulData(Chunk(a, m * k, b), Chunk(w, k * n, b), m, k, n)
    ensures 0 <= b * (m * n) + i * n + j < |y| && i * k + k <= m * k
    ensures y[b * (m * n) + i * n + j] == Dot(Chunk(a, m * k, b), Chunk(w, k * n, b), k, n, i, j, k)
  {
    var ab, wb := Chunk(a, m * k, b), Chunk(w, k * n, b);
    var mn, p := m * n, i * n + j;
    CellBound(i, j, m, n);
    RowEnd(i, m, k);
    MatMulDataAt(ab, wb, m, k, n, i, j);
    MulNonneg(b, mn);
    ChunkAt(y, mn, b, p);
    assert y[b * mn + p] == Chunk(y, mn, b)[p] == MatMulData(ab, wb, m, k, n)[p];
  }

  lemma ChunkAt(s: seq<real>, n: nat, b: nat, p: nat)
    requires b * n + n <= |s| && p < n
    ensures Chunk(s, n, b)[p] == s[b * n + p]
  {
  }

  /** Concatenation of per-batch blocks: a `[B, ...]` buffer built slice by slice. */
  function Flatten(ss: seq<seq<real>>): seq<real>
  {
    if |ss| == 0 then [] else Flatten(ss[..|ss| - 1]) + ss[|ss| - 1]
  }

  /** Flattening blocks of one size `n` and cutting the result into blocks
      of `n` gives the blocks back. */
  lemma {:induction false} FlattenChunks(ss: seq<seq<real>>, n: nat)
    requires forall i :: 0 <= i < |ss| ==> |ss[i]| == n
    ensures |Flatten(ss)| == |ss| * n
    ensures forall b :: 0 <= b < |ss| ==> b * n + n <= |Flatten(ss)| && Chunk(Flatten(ss), n, b) == ss[b]
  {
    if |ss| > 0 {
      var init := ss[..|ss| - 1];
      FlattenChunks(init, n);
      var f := Flatten(ss);
      assert f == Flatten(init) + ss[|ss| - 1];
      assert |f| == |init| * n + n == |ss| * n;
      forall b | 0 <= b < |ss|
        ensures b * n + n <= |f| && Chunk(f, n, b) == ss[b]
      {
        RowEnd(b, |ss|, n);
        if b < |ss| - 1 {
          RowEnd(b, |init|, n);
          assert Chunk(f, n, b) == Chunk(Flatten(init), n, b);
        }
      }
    }
  }

  /** Entry `(i, j)` of the product of the row-major `m x k` matrix `a` and
      the `k x n` matrix `w`, summed over the first `upto` terms. */
  function Dot(a: seq<real>, w: seq<real>, k: nat, n: nat, i: nat, j: nat, upto: nat): real
    requires j < n && upto <= k && i * k + k <= |a| && k * n <= |w|
  {
    if upto == 0 then 0.0
    else
      CellBound(upto - 1, j, k, n);
      Dot(a, w, k, n, i, j, upto - 1) + a[i * k + upto - 1] * w[(upto - 1) * n + j]
  }

  /** The row-major product of an `m x k` and a `k x n` matrix (what `gemm`
      computes). */
  function MatMulData(a: seq<real>, w: seq<real>, m: nat, k: nat, n: nat): seq<real>
    requires |a| == m * k && |w| == k * n
  {
    seq(m * n, p requires 0 <= p < m * n =>
      Split(p, m, n);
      RowEnd(p / n, m, k);
      Dot(a, w, k, n, p / n, p % n, k))
  }

  lemma MatMulDataLength(a: seq<real>, w: seq<real>, m: nat, k: nat, n: nat)
    requires |a| == m * k && |w| == k * n
    ensures |MatMulData(a, w, m, k, n)| == m * n
  {
  }

  /** Entry `(i, j)` of the product is the dot product of row `i` and column `j`. */
  lemma MatMulDataAt(a: seq<real>, w: seq<real>, m: nat, k: nat, n: nat, i: nat, j: nat)
    requires |a| == m * k && |w| == k * n && i < m && j < n
    ensures i * n + j < |MatMulData(a, w, m, k, n)| && i * k + k <= |a|
    ensures MatMulData(a, w, m, k, n)[i * n + j] == Dot(a, w, k, n, i, j, k)
  {
    CellBound(i, j, m, n);
    Join(i, j, n);
    RowEnd(i, m, k);
  }

  /** The product's entries only read row `i` of `a`: two left factors that
      agree on that row give the same partial sums. */
  lemma {:induction false} DotRowShift(a: seq<real>, c: seq<real>, w: seq<real>, k: nat, n: nat, i: nat, i2: nat, j: nat, upto: nat)
    requires j < n && upto <= k && i * k + k <= |a| && i2 * k + k <= |c| && k * n <= |w|
    requires a[i * k .. i * k + k] == c[i2 * k .. i2 * k + k]
    ensures Dot(a, w, k, n, i, j, upto) == Dot(c, w, k, n, i2, j, upto)
  {
    if upto > 0 {
      DotRowShift(a, c, w, k, n, i, i2, j, upto - 1);
      assert a[i * k .. i * k + k][upto - 1] == c[i2 * k .. i2 * k + k][upto - 1];
    }
  }

  /** Row `i` of block `b` of a stack of `m x k` blocks is row `b * m + i` of the stack. */
  lemma StackedRow(a: seq<real>, R: nat, m: nat, k: nat, b: nat, i: nat)
    requires |a| == R * m * k && b < R && i < m
    ensures b * (m * k) + m * k <= |a|
    ensures (b * m + i) * k + k <= |a| && i * k + k <= m * k
    ensures a[(b * m + i) * k .. (b * m + i) * k + k] == Chunk(a, m * k, b)[i * k .. i * k + k]
  {
    MulAssoc(R, m, k);
    RowEnd(b, R, m * k);
    CellBound(b, i, R, m);
    MulAssoc(R, m, k);
    RowEnd(b * m + i, R * m, k);
    RowEnd(i, m, k);
    MulAssoc(b, m, k);
    Distribute(b * m + i, i, k);
    var base := b * (m * k);
    assert (b * m + i) * k == base + i * k;
    var ch := Chunk(a, m * k, b);
    var lhs, rhs := a[base + i * k .. base + i * k + k], ch[i * k .. i * k + k];
    forall t | 0 <= t < k
      ensures lhs[t] == rhs[t]
    {
      assert ch[i * k + t] == a[base + (i * k + t)];
    }
  }

  /** Entry `p` of block `b` of the stacked product. */
  lemma MatMulStackedAt(a: seq<real>, w: seq<real>, R: nat, m: nat, k: nat, n: nat, b: nat, p: nat)
    requires |a| == R * m * k && |w| == k * n && b < R && p < m * n
    ensures |a| == (R * m) * k && b * (m * k) + m * k <= |a|
    ensures b * (m * n) + p < |MatMulData(a, w, R * m, k, n)|
    ensures MatMulData(a, w, R * m, k, n)[b * (m * n) + p] == MatMulData(Chunk(a, m * k, b), w, m, k, n)[p]
  {
    MulAssoc(R, m, k);
    MulAssoc(R, m, n);
    RowEnd(b, R, m * k);
    RowEnd(b, R, m * n);
    Split(p, m, n);
    var i, j := p / n, p % n;
    assert b * (m * n) + p == (b * m + i) * n + j by {
      MulAssoc(b, m, n);
      Distribute(b * m + i, i, n);
    }
    Join(b * m + i, j, n);
    StackedRow(a, R, m, k, b, i);
    DotRowShift(a, Chunk(a, m * k, b), w, k, n, b * m + i, i, j, k);
  }

  /** Multiplying `R` stacked `m x k` blocks by one `k x n` matrix is the
      stack of the per-block products. */
  lemma MatMulStacked(a: seq<real>, w: seq<real>, R: nat, m: nat, k: nat, n: nat, b: nat)
    requires |a| == R * m * k && |w| == k * n && b < R
    ensures |a| == (R * m) * k && b * (m * k) + m * k <= |a|
    ensures b * (m * n) + m * n <= |MatMulData(a, w, R * m, k, n)|
    ensures Chunk(MatMulData(a, w, R * m, k, n), m * n, b) == MatMulData(Chunk(a, m * k, b), w, m, k, n)
  {
    MulAssoc(R, m, k);
    MulAssoc(R, m, n);
    RowEnd(b, R, m * k);
    RowEnd(b, R, m * n);
    var lhs := Chunk(MatMulData(a, w, R * m, k, n), m * n, b);
    var rhs := MatMulData(Chunk(a, m * k, b), w, m, k, n);
    forall p | 0 <= p < m * n
      ensures lhs[p] == rhs[p]
    {
      MatMulStackedAt(a, w, R, m, k, n, b, p);
    }
  }

  /** Flat offset of index `(a, b, c, d)` in a buffer of shape `[_, B, C, D]`. */
  function Off4(a: int, b: int, c: int, d: int, B: int, C: int, D: int): int
  {
    ((a * B + b) * C + c) * D + d
  }

  lemma Off4Bound(a: int, b: int, c: int, d: int, A: int, B: int, C: int, D: int)
    requires 0 <= a < A && 0 <= b < B && 0 <= c < C && 0 <= d < D
    ensures 0 <= Off4(a, b, c, d, B, C, D) < A * B * C * D
  {
    CellBound(a, b, A, B);
    CellBound(a * B + b, c, A * B, C);
    CellBound((a * B + b) * C + c, d, A * B * C, D);
  }

  lemma Off4Join(a: int, b: int, c: int, d: int, B: int, C: int, D: int)
    requires 0 <= a && 0 <= b < B && 0 <= c < C && 0 <= d < D
    ensures Off4(a, b, c, d, B, C, D) % D == d
    ensures Off4(a, b, c, d, B, C, D) / D % C == c
    ensures Off4(a, b, c, d, B, C, D) / D / C % B == b
    ensures Off4(a, b, c, d, B, C, D) / D / C / B == a
  {
    var x := a * B + b;
    var y := x * C + c;
    MulNonneg(a, B);
    MulNonneg(x, C);
    assert Off4(a, b, c, d, B, C, D) == y * D + d;
    Join(y, d, D);
    Join(x, c, C);
    Join(a, b, B);
  }

  /** Every index below `A * B * C * D` is the offset of exactly the index
      its divisions and remainders give. */
  lemma Off4Split(p: int, A: int, B: int, C: int, D: int)
    requires 0 <= A && 0 <= B && 0 <= C && 0 <= D && 0 <= p < A * B * C * D
    ensures D > 0 && C > 0 && B > 0
    ensures 0 <= p / D / C / B < A && 0 <= p / D / C % B < B && 0 <= p / D % C < C && 0 <= p % D < D
    ensures p == Off4(p / D / C / B, p / D / C % B, p / D % C, p % D, B, C, D)
  {
    assert D > 0 && C > 0 && B > 0;
    Split(p, A * B * C, D);
    Split(p / D, A * B, C);
    Split(p / D / C, A, B);
  }

  /** Where output element `p` of a `[A, B, C, D] -> [A, C, B, D]` axis swap
      is read from. */
  function SwapSource(p: int, A: nat, B: nat, C: nat, D: nat): (s: int)
    requires 0 <= p < A * C * B * D
    ensures 0 <= s < A * B * C * D
  {
    Off4Split(p, A, C, B, D);
    Off4Bound(p / D / B / C, p / D % B, p / D / B % C, p % D, A, B, C, D);
    Off4(p / D / B / C, p / D % B, p / D / B % C, p % D, B, C, D)
  }

  /** Swapping the two middle axes of a `[A, B, C, D]` row-major buffer: what
      ND4J's permute of two adjacent axes does to the elements, once the axes
      before them are merged into `A` and those after into `D`. */
  function SwapAdjacent(x: seq<real>, A: nat, B: nat, C: nat, D: nat): (y: seq<real>)
    requires |x| == A * B * C * D
    ensures |y| == A * C * B * D
  {
    seq(A * C * B * D, p requires 0 <= p < A * C * B * D => x[SwapSource(p, A, B, C, D)])
  }

  /** Element `(a, c, b, d)` of the swapped buffer is element `(a, b, c, d)`
      of the original. */
  lemma SwapAdjacentAt(x: seq<real>, A: nat, B: nat, C: nat, D: nat, a: nat, b: nat, c: nat, d: nat)
    requires |x| == A * B * C * D
    requires a < A && b < B && c < C && d < D
    ensures 0 <= Off4(a, c, b, d, C, B, D) < A * C * B * D
    ensures 0 <= Off4(a, b, c, d, B, C, D) < A * B * C * D
    ensures SwapAdjacent(x, A, B, C, D)[Off4(a, c, b, d, C, B, D)] == x[Off4(a, b, c, d, B, C, D)]
  {
    Off4Bound(a, c, b, d, A, C, B, D);
    Off4Bound(a, b, c, d, A, B, C, D);
    Off4Join(a, c, b, d, C, B, D);
  }

  /** Swapping the same two axes twice restores the buffer. */
  lemma SwapAdjacentTwice(x: seq<real>, A: nat, B: nat, C: nat, D: nat)
    requires |x| == A * B * C * D
    ensures A * C * B * D == |x|
    ensures SwapAdjacent(SwapAdjacent(x, A, B, C, D), A, C, B, D) == x
  {
    MulComm3(A, B, C, D);
    var y := SwapAdjacent(x, A, B, C, D);
    var z := SwapAdjacent(y, A, C, B, D);
    assert |z| == |x|;
    forall p | 0 <= p < |x|
      ensures z[p] == x[p]
    {
      Off4Split(p, A, B, C, D);
      var a, b, c, d := p / D / C / B, p / D / C % B, p / D % C, p % D;
      SwapAdjacentAt(y, A, C, B, D, a, c, b, d);
      SwapAdjacentAt(x, A, B, C, D, a, b, c, d);
    }
  }
}
