/** `tensor.BatchedOps`: matrix products over stacks of matrices. The
    leading axes of a rank >= 3 tensor are a batch of matrices stored one
    after another in the row-major buffer. */
module BatchedOps {
  import opened Wrappers
  import opened IndexArith
  import opened TensorData

  /** Largest Java `int`; `Math.toIntExact` rejects anything above it. */
  const IntMax: int := 2147483647

  /** The loop that multiplies the sizes of the first `n` axes together. */
  method BatchCount(shape: Shape, n: nat) returns (count: nat)
    requires n <= |shape|
    ensures count == Product(shape[..n])
  {
    count := 1;
    assert shape[..0] == [];
    for i := 0 to n
      invariant count == Product(shape[..i])
    {
      ProductPrefixStep(shape, i);
      count := count * shape[i];
    }
  }

  lemma ProductSetLast(s: Shape, x: nat)
    requires |s| >= 1
    ensures Product(s[|s| - 1 := x]) == Product(s[..|s| - 1]) * x
  {
    assert s[|s| - 1 := x][..|s| - 1] == s[..|s| - 1];
  }

  /** What `mmulND2` returns: `[..., M, K] x [K, N] = [..., M, N]`, the whole
      batch multiplied as one `(B*M) x K` matrix. */
  function MmulND2Spec(X: Tensor, W: Tensor): (res: Result<Tensor>)
    requires WellFormed(X) && WellFormed(W)
    ensures res.Ok? <==> |X.shape| >= 3 && |W.shape| == 2 && W.shape[0] == X.shape[|X.shape| - 1]
    ensures res.Err? ==> res.error == IllegalArgument
    ensures res.Ok? ==> WellFormed(res.value)
    ensures res.Ok? ==> res.value.shape == X.shape[..|X.shape| - 1] + [W.shape[1]]
  {
    var r := |X.shape|;
    if r < 3 then Err(IllegalArgument)
    else
      var M, K := X.shape[r - 2], X.shape[r - 1];
      if |W.shape| != 2 || W.shape[0] != K then Err(IllegalArgument)
      else
        var N := W.shape[1];
        var B := Product(X.shape[..r - 2]);
        ProductLastTwo(X.shape);
        ProductRank2(W.shape);
        ProductSetLast(X.shape, N);
        ProductLastTwo(X.shape[..r - 1] + [N]);
        assert (X.shape[..r - 1] + [N])[..r - 2] == X.shape[..r - 2];
        MatMulDataLength(X.data, W.data, B * M, K, N);
        Ok(Tensor(X.shape[r - 1 := N], MatMulData(X.data, W.data, B * M, K, N)))
  }

  method MmulND2(X: Tensor, W: Tensor) returns (res: Result<Tensor>)
    requires WellFormed(X) && WellFormed(W)
    ensures res == MmulND2Spec(X, W)
  {
    var r := |X.shape|;
    if r < 3 {
      return Err(IllegalArgument);
    }
    var M, K := X.shape[r - 2], X.shape[r - 1];
    if |W.shape| != 2 || W.shape[0] != K {
      return Err(IllegalArgument);
    }
    var N := W.shape[1];
    var B := BatchCount(X.shape, r - 2);
    ProductLastTwo(X.shape);
    var X2D := Reshape(X, [B * M, K]);
    ProductRank2([B * M, K]);
    assert X2D.Ok?;
    ProductRank2(W.shape);
    var Z := MatMulData(X2D.value.data, W.data, B * M, K, N);
    var out := X.shape[r - 1 := N];
    res := Ok(Tensor(out, Z));
  }

  /** Each batch of `mmulND2`'s result is that batch of `X` times `W`. */
  lemma MmulND2PerBatch(X: Tensor, W: Tensor, b: nat)
    requires WellFormed(X) && WellFormed(W) && MmulND2Spec(X, W).Ok?
    requires b < Product(X.shape[..|X.shape| - 2])
    ensures var r := |X.shape|;
            var M, K, N := X.shape[r - 2], X.shape[r - 1], W.shape[1];
            var Y := MmulND2Spec(X, W).value;
            b * (M * K) + M * K <= |X.data| && b * (M * N) + M * N <= |Y.data| && |W.data| == K * N &&
            Chunk(Y.data, M * N, b) == MatMulData(Chunk(X.data, M * K, b), W.data, M, K, N)
  {
    var r := |X.shape|;
    var M, K, N := X.shape[r - 2], X.shape[r - 1], W.shape[1];
    ProductLastTwo(X.shape);
    ProductRank2(W.shape);
    MatMulStacked(X.data, W.data, Product(X.shape[..r - 2]), M, K, N, b);
  }

  /** The per-batch products `Yb = X1b * X2b` of the `bmmulND2` loop. */
  function BatchProducts(x1: seq<real>, x2: seq<real>, Bs: nat, M: nat, K: nat, N: nat): (ys: seq<seq<real>>)
    requires |x1| == Bs * M * K && |x2| == Bs * K * N
    ensures |ys| == Bs && forall b :: 0 <= b < Bs ==> |ys[b]| == M * N
  {
    MulAssoc(Bs, M, K);
    MulAssoc(Bs, K, N);
    seq(Bs, b requires 0 <= b < Bs =>
      RowEnd(b, Bs, M * K);
      RowEnd(b, Bs, K * N);
      MatMulDataLength(Chunk(x1, M * K, b), Chunk(x2, K * N, b), M, K, N);
      MatMulData(Chunk(x1, M * K, b), Chunk(x2, K * N, b), M, K, N))
  }

  /** What `bmmulND2` returns: `[..., M, K] x [..., K, N] = [..., M, N]`. */
  function BmmulND2Spec(X1: Tensor, X2: Tensor): (res: Result<Tensor>)
    requires WellFormed(X1) && WellFormed(X2)
    ensures res.Err? ==> res.error == IllegalArgument || res.error == Arithmetic
    ensures res.Ok? ==> |res.value.shape| == |X1.shape| >= 3
  {
    var r := |X1.shape|;
    if r != |X2.shape| || r < 3 then Err(IllegalArgument)
    else if X1.shape[..r - 2] != X2.shape[..r - 2] then Err(IllegalArgument)
    else
      var M, K, K2, N := X1.shape[r - 2], X1.shape[r - 1], X2.shape[r - 2], X2.shape[r - 1];
      if K != K2 then Err(IllegalArgument)
      else
        var Bs := Product(X1.shape[..r - 2]);
        if Bs > IntMax then Err(Arithmetic)
        else
          ProductLastTwo(X1.shape);
          ProductLastTwo(X2.shape);
          Ok(Tensor(X1.shape[r - 2 := M][r - 1 := N], Flatten(BatchProducts(X1.data, X2.data, Bs, M, K, N))))
  }

  /** When `bmmulND2` succeeds and when it throws. */
  lemma BmmulND2Outcome(X1: Tensor, X2: Tensor)
    requires WellFormed(X1) && WellFormed(X2)
    ensures var r := |X1.shape|;
            var ok := r == |X2.shape| && r >= 3 && X1.shape[..r - 2] == X2.shape[..r - 2] && X1.shape[r - 1] == X2.shape[r - 2];
            (BmmulND2Spec(X1, X2).Ok? <==> ok && Product(X1.shape[..r - 2]) <= IntMax) &&
            (BmmulND2Spec(X1, X2) == Err(Arithmetic) <==> ok && Product(X1.shape[..r - 2]) > IntMax) &&
            (BmmulND2Spec(X1, X2) == Err(IllegalArgument) <==> !ok)
  {
  }

  /** A successful `bmmulND2` keeps the leading axes and has `[M, N]` last. */
  lemma BmmulND2Shape(X1: Tensor, X2: Tensor)
    requires WellFormed(X1) && WellFormed(X2) && BmmulND2Spec(X1, X2).Ok?
    ensures var r := |X1.shape|;
            var Y := BmmulND2Spec(X1, X2).value;
            WellFormed(Y) && Y.shape == X1.shape[..r - 1] + [X2.shape[r - 1]]
  {
    var r := |X1.shape|;
    var M, K, N := X1.shape[r - 2], X1.shape[r - 1], X2.shape[r - 1];
    var Bs := Product(X1.shape[..r - 2]);
    ProductLastTwo(X1.shape);
    ProductLastTwo(X2.shape);
    var ys := BatchProducts(X1.data, X2.data, Bs, M, K, N);
    FlattenChunks(ys, M * N);
    var out := X1.shape[..r - 1] + [N];
    assert BmmulND2Spec(X1, X2).value.shape == out;
    ProductLastTwo(out);
    assert out[..r - 2] == X1.shape[..r - 2];
    MulAssoc(Bs, M, N);
  }

  /** Batch `b` of a successful `bmmulND2` is the product of batch `b` of
      each factor. */
  lemma BmmulND2Block(X1: Tensor, X2: Tensor, b: nat)
    requires WellFormed(X1) && WellFormed(X2) && BmmulND2Spec(X1, X2).Ok?
    requires b < Product(X1.shape[..|X1.shape| - 2])
    ensures var r := |X1.shape|;
            var M, K, N := X1.shape[r - 2], X1.shape[r - 1], X2.shape[r - 1];
            var Y := BmmulND2Spec(X1, X2).value;
            b * (M * K) + M * K <= |X1.data| && b * (K * N) + K * N <= |X2.data| && b * (M * N) + M * N <= |Y.data| &&
            Chunk(Y.data, M * N, b) == MatMulData(Chunk(X1.data, M * K, b), Chunk(X2.data, K * N, b), M, K, N)
  {
    var r := |X1.shape|;
    var M, K, N := X1.shape[r - 2], X1.shape[r - 1], X2.shape[r - 1];
    var Bs := Product(X1.shape[..r - 2]);
    ProductLastTwo(X1.shape);
    ProductLastTwo(X2.shape);
    var ys := BatchProducts(X1.data, X2.data, Bs, M, K, N);
    FlattenChunks(ys, M * N);
    RowEnd(b, Bs, M * K);
    RowEnd(b, Bs, K * N);
    MulAssoc(Bs, M, K);
    MulAssoc(Bs, K, N);
    assert ys[b] == MatMulData(Chunk(X1.data, M * K, b), Chunk(X2.data, K * N, b), M, K, N);
  }

  method BmmulND2(X1: Tensor, X2: Tensor) returns (res: Result<Tensor>)
    requires WellFormed(X1) && WellFormed(X2)
    ensures res == BmmulND2Spec(X1, X2)
  {
    var r := |X1.shape|;
    if r != |X2.shape| || r < 3 {
      return Err(IllegalArgument);
    }
    for i := 0 to r - 2
      invariant X1.shape[..i] == X2.shape[..i]
    {
      if X1.shape[i] != X2.shape[i] {
        return Err(IllegalArgument);
      }
    }
    assert X1.shape[..r - 2] == X2.shape[..r - 2];
    var M, K, K2, N := X1.shape[r - 2], X1.shape[r - 1], X2.shape[r - 2], X2.shape[r - 1];
    if K != K2 {
      return Err(IllegalArgument);
    }
    var Bs := BatchCount(X1.shape, r - 2);
    if Bs > IntMax {
      return Err(Arithmetic);
    }
    ProductLastTwo(X1.shape);
    ProductLastTwo(X2.shape);
    var spec := BatchProducts(X1.data, X2.data, Bs, M, K, N);
    MulAssoc(Bs, M, K);
    MulAssoc(Bs, K, N);
    // Y.slice(b) for each batch b
    var Y := new seq<real>[Bs];
    for b := 0 to Bs
      invariant Y[..b] == spec[..b]
    {
      RowEnd(b, Bs, M * K);
      RowEnd(b, Bs, K * N);
      Y[b] := MatMulData(Chunk(X1.data, M * K, b), Chunk(X2.data, K * N, b), M, K, N);
      assert Y[..b + 1] == Y[..b] + [Y[b]];
    }
    assert Y[..] == spec;
    var out := X1.shape[r - 2 := M][r - 1 := N];
    res := Ok(Tensor(out, Flatten(Y[..])));
  }
}
