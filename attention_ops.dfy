/** `nn.layers.attention.AttentionOps`: the attention scores `Q K^T / scale`,
    the additive mask, and splitting the model dimension of a
    `[B, T, d_model]` tensor into `H` heads of `d_h = d_model / H` and
    merging them back. */
module AttentionOps {
  import opened Wrappers
  import opened IndexArith
  import opened TensorData
  import opened BatchedOps
  import opened Tensors

  /** Offset of `[b, t, k]` in a row-major `[B, T, d]` buffer. */
  function Off3(b: int, t: int, k: int, T: int, d: int): int
  {
    (b * T + t) * d + k
  }

  /** Head `h`, component `i` of a `[B, T, H, d_h]` view is component
      `h * d_h + i` of the unsplit `[B, T, H * d_h]` buffer. */
  lemma Off4AsOff3(b: int, t: int, h: int, i: int, T: int, H: int, dh: int)
    ensures Off4(b, t, h, i, T, H, dh) == Off3(b, t, h * dh + i, T, H * dh)
  {
    var x := b * T + t;
    Distribute(x * H + h, h, dh);
    MulAssoc(x, H, dh);
  }

  lemma Off3Bound(b: nat, t: nat, k: nat, B: nat, T: nat, d: nat)
    requires b < B && t < T && k < d
    ensures 0 <= Off3(b, t, k, T, d) < B * T * d
  {
    CellBound(b, t, B, T);
    CellBound(b * T + t, k, B * T, d);
  }

  /** `splitHeads(X, H)`: `[B, T, d]` reshaped to `[B, T, H, d/H]` and the
      middle axes exchanged, giving `[B, H, T, d/H]`. ND4J rejects a rank
      below 2 and a reshape whose sizes differ; `d % H` throws for `H == 0`. */
  function SplitHeads(X: Tensor, H: nat): (res: Result<Tensor>)
    requires WellFormed(X)
    ensures |X.shape| < 2 ==> res == Err(LibraryShape)
    ensures |X.shape| >= 2 && H == 0 ==> res == Err(Arithmetic)
    ensures |X.shape| >= 2 && H > 0 && X.shape[|X.shape| - 1] % H != 0 ==> res == Err(IllegalArgument)
    ensures res.Ok? ==> WellFormed(res.value) && |res.value.shape| == 4
  {
    var r := |X.shape|;
    if r < 2 then Err(LibraryShape)
    else
      var B, T, d := X.shape[0], X.shape[r - 2], X.shape[r - 1];
      if H == 0 then Err(Arithmetic)
      else if d % H != 0 then Err(IllegalArgument)
      else
        var dh := d / H;
        if |X.data| != B * T * H * dh then Err(LibraryShape)
        else
          ProductRank4([B, H, T, dh]);
          MulComm3(B, T, H, dh);
          Ok(Tensor([B, H, T, dh], SwapAdjacent(X.data, B, T, H, dh)))
  }

  /** On a `[B, T, d]` input, splitting succeeds exactly when `H` divides
      `d`, and yields `[B, H, T, d/H]`. */
  lemma SplitHeadsRank3(X: Tensor, H: nat)
    requires WellFormed(X) && |X.shape| == 3
    ensures SplitHeads(X, H).Ok? <==> H > 0 && X.shape[2] % H == 0
    ensures SplitHeads(X, H).Ok? ==> SplitHeads(X, H).value.shape == [X.shape[0], H, X.shape[1], X.shape[2] / H]
  {
    ProductRank3(X.shape);
    if H > 0 && X.shape[2] % H == 0 {
      var dh := X.shape[2] / H;
      assert X.shape[2] == H * dh;
      MulAssoc(X.shape[0] * X.shape[1], H, dh);
    }
  }

  lemma SplitHeadsValue(X: Tensor, H: nat)
    requires WellFormed(X) && |X.shape| == 3 && H > 0 && X.shape[2] % H == 0
    ensures var B, T, d, dh := X.shape[0], X.shape[1], X.shape[2], X.shape[2] / H;
            d == H * dh && |X.data| == B * T * H * dh &&
            SplitHeads(X, H) == Ok(Tensor([B, H, T, dh], SwapAdjacent(X.data, B, T, H, dh)))
  {
    var B, T, d, dh := X.shape[0], X.shape[1], X.shape[2], X.shape[2] / H;
    assert d == H * dh;
    ProductRank3(X.shape);
    MulAssoc(B * T, H, dh);
  }

  /** Element `[b, h, t, i]` of the split tensor is element
      `[b, t, h * d_h + i]` of the input. */
  lemma SplitHeadsAt(X: Tensor, H: nat, b: nat, h: nat, t: nat, i: nat)
    requires WellFormed(X) && |X.shape| == 3 && H > 0 && X.shape[2] % H == 0
    requires b < X.shape[0] && h < H && t < X.shape[1] && i < X.shape[2] / H
    ensures SplitHeads(X, H).Ok?
    ensures var B, T, d, dh := X.shape[0], X.shape[1], X.shape[2], X.shape[2] / H;
            0 <= Off4(b, h, t, i, H, T, dh) < |SplitHeads(X, H).value.data| &&
            0 <= Off3(b, t, h * dh + i, T, d) < |X.data| &&
            SplitHeads(X, H).value.data[Off4(b, h, t, i, H, T, dh)] == X.data[Off3(b, t, h * dh + i, T, d)]
  {
    SplitHeadsRank3(X, H);
    var B, T, d, dh := X.shape[0], X.shape[1], X.shape[2], X.shape[2] / H;
    assert d == H * dh;
    ProductRank3(X.shape);
    ProductRank4([B, H, T, dh]);
    MulAssoc(B * T, H, dh);
    SwapAdjacentAt(X.data, B, T, H, dh, b, t, h, i);
    Off4AsOff3(b, t, h, i, T, H, dh);
  }

  /** `mergeHeads(O)`: axes `r-3` and `r-2` exchanged (throws below rank 3),
      then reshaped to `[B, T, h * d_h]` from the sizes of the exchanged
      tensor; ND4J rejects a reshape whose sizes differ. */
  function MergeHeads(O: Tensor): (res: Result<Tensor>)
    requires WellFormed(O)
    ensures |O.shape| < 3 ==> res == Err(IllegalArgument)
    ensures |O.shape| == 4 ==> res.Ok? && res.value.shape == [O.shape[0], O.shape[2], O.shape[1] * O.shape[3]]
    ensures res.Ok? ==> WellFormed(res.value)
  {
    var r := |O.shape|;
    if r < 3 then Err(IllegalArgument)
    else
      var outer := Product(O.shape[..r - 3]);
      var P, Q, D := O.shape[r - 3], O.shape[r - 2], O.shape[r - 1];
      ProductLastThree(O.shape);
      var tmpShape := O.shape[r - 3 := Q][r - 2 := P];
      var tmp := SwapAdjacent(O.data, outer, P, Q, D);
      var B, T, h, dh := tmpShape[0], tmpShape[r - 3], tmpShape[r - 2], tmpShape[r - 1];
      if |tmp| != B * T * (h * dh) then Err(LibraryShape)
      else
        ProductRank3([B, T, h * dh]);
        MulAssoc(B, T, h * dh);
        if r == 4 then
          assert O.shape[..1][..0] == [];
          MulComm3(B, P, Q, D);
          MulAssoc(B * Q, P, D);
          Ok(Tensor([B, T, h * dh], tmp))
        else Ok(Tensor([B, T, h * dh], tmp))
  }

  /** On a `[B, H, T, d_h]` input the merge is the exchanged buffer under
      the shape `[B, T, H * d_h]`. */
  lemma MergeHeadsRank4(O: Tensor)
    requires WellFormed(O) && |O.shape| == 4
    ensures var B, H, T, dh := O.shape[0], O.shape[1], O.shape[2], O.shape[3];
            |O.data| == B * H * T * dh &&
            MergeHeads(O) == Ok(Tensor([B, T, H * dh], SwapAdjacent(O.data, B, H, T, dh)))
  {
    var B := O.shape[0];
    ProductRank4(O.shape);
    assert O.shape[..1] == [B];
    assert [B][..0] == [];
    assert Product(O.shape[..1]) == B;
  }

  /** Element `[b, t, h * d_h + i]` of the merged tensor is element
      `[b, h, t, i]` of the heads. */
  lemma MergeHeadsAt(O: Tensor, b: nat, h: nat, t: nat, i: nat)
    requires WellFormed(O) && |O.shape| == 4
    requires b < O.shape[0] && h < O.shape[1] && t < O.shape[2] && i < O.shape[3]
    ensures MergeHeads(O).Ok?
    ensures var H, T, dh := O.shape[1], O.shape[2], O.shape[3];
            0 <= Off3(b, t, h * dh + i, T, H * dh) < |MergeHeads(O).value.data| &&
            0 <= Off4(b, h, t, i, H, T, dh) < |O.data| &&
            MergeHeads(O).value.data[Off3(b, t, h * dh + i, T, H * dh)] == O.data[Off4(b, h, t, i, H, T, dh)]
  {
    var B, H, T, dh := O.shape[0], O.shape[1], O.shape[2], O.shape[3];
    MergeHeadsRank4(O);
    SwapAdjacentAt(O.data, B, H, T, dh, b, h, t, i);
    Off4AsOff3(b, t, h, i, T, H, dh);
  }

  /** Merging undoes splitting: `mergeHeads(splitHeads(X, H)) == X` for every
      `[B, T, d]` input that `H` divides. */
  lemma MergeAfterSplit(X: Tensor, H: nat)
    requires WellFormed(X) && |X.shape| == 3 && H > 0 && X.shape[2] % H == 0
    ensures SplitHeads(X, H).Ok?
    ensures MergeHeads(SplitHeads(X, H).value) == Ok(X)
  {
    var B, T, d, dh := X.shape[0], X.shape[1], X.shape[2], X.shape[2] / H;
    SplitHeadsValue(X, H);
    var O := Tensor([B, H, T, dh], SwapAdjacent(X.data, B, T, H, dh));
    MergeHeadsRank4(O);
    SwapAdjacentTwice(X.data, B, T, H, dh);
    assert H * dh == d;
    assert X == Tensor([B, T, d], X.data);
  }

  /** Splitting undoes merging: a `[B, H, T, d_h]` tensor with `H > 0` is
      recovered by splitting its merge into `H` heads. */
  lemma SplitAfterMerge(O: Tensor)
    requires WellFormed(O) && |O.shape| == 4 && O.shape[1] > 0
    ensures MergeHeads(O).Ok?
    ensures SplitHeads(MergeHeads(O).value, O.shape[1]) == Ok(O)
  {
    var B, H, T, dh := O.shape[0], O.shape[1], O.shape[2], O.shape[3];
    MergeHeadsRank4(O);
    var M := MergeHeads(O).value;
    assert M.data == SwapAdjacent(O.data, B, H, T, dh);
    assert (H * dh) % H == 0 && (H * dh) / H == dh by {
      Join(dh, 0, H);
      assert dh * H + 0 == H * dh;
    }
    MulComm3(B, H, T, dh);
    MulAssoc(B * T, H, dh);
    SwapAdjacentTwice(O.data, B, H, T, dh);
    assert O.shape == [B, H, T, dh];
  }

  // ---------------------------------------------------------------------
  // qkScores

  /** `transpose(-1, -2)` of a rank >= 2 tensor, on data: each trailing
      `R x C` matrix becomes its `C x R` transpose. */
  function TransposeLast(K: Tensor): (Kt: Tensor)
    requires WellFormed(K) && |K.shape| >= 2
    ensures WellFormed(Kt)
    ensures Kt.shape == PermuteShape(K.shape, Exchange(|K.shape|, |K.shape| - 2, |K.shape| - 1))
    ensures Kt.shape == K.shape[..|K.shape| - 2] + [K.shape[|K.shape| - 1], K.shape[|K.shape| - 2]]
  {
    var r := |K.shape|;
    var outer, R, C := Product(K.shape[..r - 2]), K.shape[r - 2], K.shape[r - 1];
    ProductLastTwo(K.shape);
    var sh := K.shape[r - 2 := C][r - 1 := R];
    ProductLastTwo(sh);
    assert sh[..r - 2] == K.shape[..r - 2];
    MulComm3(outer, R, C, 1);
    Tensor(sh, SwapAdjacent(K.data, outer, R, C, 1))
  }

  /** `div(double)`: every element divided by the scalar. */
  function DivScalar(t: Tensor, s: real): (u: Tensor)
    requires s != 0.0
    ensures u.shape == t.shape && |u.data| == |t.data|
  {
    Tensor(t.shape, seq(|t.data|, i requires 0 <= i < |t.data| => t.data[i] / s))
  }

  /** `qkScores(Q, K, scale)`: `Q` times the transpose of `K`'s last two
      axes, divided by `scale`. */
  function QkScores(Q: Tensor, K: Tensor, scale: real): (res: Result<Tensor>)
    requires WellFormed(Q) && WellFormed(K) && scale != 0.0
    ensures |K.shape| < 2 ==> res == Err(IllegalArgument)
    ensures res.Ok? ==> WellFormed(res.value)
  {
    if |K.shape| < 2 then Err(IllegalArgument)
    else
      match Matmul(Q, TransposeLast(K))
      case Err(e) => Err(e)
      case Ok(S) => Ok(DivScalar(S, scale))
  }

  /** `sum over t < upto of q[i, t] * k[j, t]` for row-major `[*, dh]` buffers:
      the dot product of query row `i` and key row `j`. */
  function RowDot(q: seq<real>, k: seq<real>, dh: nat, i: nat, j: nat, upto: nat): real
    requires upto <= dh && i * dh + dh <= |q| && j * dh + dh <= |k|
  {
    if upto == 0 then 0.0
    else RowDot(q, k, dh, i, j, upto - 1) + q[i * dh + upto - 1] * k[j * dh + upto - 1]
  }

  /** Entry `(t, j)` of the `dh x Tk` matrix `w` is entry `(j, t)` of the
      `Tk x dh` matrix `k`. */
  predicate TransposedAt(w: seq<real>, k: seq<real>, dh: nat, Tk: nat, t: nat, j: nat)
  {
    t * Tk + j < |w| && j * dh + t < |k| && w[t * Tk + j] == k[j * dh + t]
  }

  lemma {:induction false} DotTransposed(a: seq<real>, w: seq<real>, k: seq<real>, dh: nat, Tk: nat, i: nat, j: nat, upto: nat)
    requires j < Tk && upto <= dh && i * dh + dh <= |a| && dh * Tk <= |w| && j * dh + dh <= |k|
    requires forall t :: 0 <= t < dh ==> TransposedAt(w, k, dh, Tk, t, j)
    ensures Dot(a, w, dh, Tk, i, j, upto) == RowDot(a, k, dh, i, j, upto)
  {
    if upto > 0 {
      DotTransposed(a, w, k, dh, Tk, i, j, upto - 1);
      assert TransposedAt(w, k, dh, Tk, upto - 1, j);
    }
  }

  /** Block `b` of the transposed keys is the transpose of block `b` of the keys. */
  lemma TransposeLastBlock(K: Tensor, b: nat, t: nat, j: nat)
    requires WellFormed(K) && |K.shape| >= 2
    requires var r := |K.shape|;
             b < Product(K.shape[..r - 2]) && t < K.shape[r - 1] && j < K.shape[r - 2]
    ensures var r := |K.shape|;
            var Tk, dh := K.shape[r - 2], K.shape[r - 1];
            var Kt := TransposeLast(K);
            b * (dh * Tk) + dh * Tk <= |Kt.data| && b * (Tk * dh) + Tk * dh <= |K.data| &&
            TransposedAt(Chunk(Kt.data, dh * Tk, b), Chunk(K.data, Tk * dh, b), dh, Tk, t, j)
  {
    var r := |K.shape|;
    var Bs, Tk, dh := Product(K.shape[..r - 2]), K.shape[r - 2], K.shape[r - 1];
    ProductLastTwo(K.shape);
    var Kt := TransposeLast(K);
    MulAssoc(Bs, Tk, dh);
    MulAssoc(Bs, dh, Tk);
    MulComm3(Bs, Tk, dh, 1);
    RowEnd(b, Bs, dh * Tk);
    RowEnd(b, Bs, Tk * dh);
    CellBound(t, j, dh, Tk);
    CellBound(j, t, Tk, dh);
    SwapAdjacentAt(K.data, Bs, Tk, dh, 1, b, j, t, 0);
    assert Off4(b, t, j, 0, dh, Tk, 1) == b * (dh * Tk) + (t * Tk + j) by {
      Distribute(b * dh + t, t, Tk);
      MulAssoc(b, dh, Tk);
    }
    assert Off4(b, j, t, 0, Tk, dh, 1) == b * (Tk * dh) + (j * dh + t) by {
      Distribute(b * Tk + j, j, dh);
      MulAssoc(b, Tk, dh);
    }
  }

  /** The preconditions under which `qkScores` multiplies stacks of matrices. */
  predicate BatchedScores(Q: Tensor, K: Tensor)
  {
    var r := |Q.shape|;
    r >= 3 && |K.shape| == r && Q.shape[..r - 2] == K.shape[..r - 2] && Q.shape[r - 1] == K.shape[r - 1] &&
    Product(Q.shape[..r - 2]) <= IntMax
  }

  lemma QkScoresBatched(Q: Tensor, K: Tensor, scale: real)
    requires WellFormed(Q) && WellFormed(K) && scale != 0.0 && BatchedScores(Q, K)
    ensures BmmulND2Spec(Q, TransposeLast(K)).Ok?
    ensures QkScores(Q, K, scale) == Ok(DivScalar(BmmulND2Spec(Q, TransposeLast(K)).value, scale))
  {
    var r := |Q.shape|;
    var Kt := TransposeLast(K);
    assert Kt.shape[..r - 2] == K.shape[..r - 2];
    assert MatmulAccepts(Q.shape, Kt.shape);
    BmmulND2Outcome(Q, Kt);
  }

  /** Entry `(i, j)` of batch `b` of a batched product is the sum over the
      inner axis. */
  lemma BatchedEntry(X1: Tensor, X2: Tensor, b: nat, i: nat, j: nat)
    requires WellFormed(X1) && WellFormed(X2) && BmmulND2Spec(X1, X2).Ok?
    requires var r := |X1.shape|;
             b < Product(X1.shape[..r - 2]) && i < X1.shape[r - 2] && j < X2.shape[r - 1]
    ensures var r := |X1.shape|;
            var M, K, N := X1.shape[r - 2], X1.shape[r - 1], X2.shape[r - 1];
            var Y := BmmulND2Spec(X1, X2).value;
            0 <= b * (M * N) + i * N + j < |Y.data| &&
            b * (M * K) + M * K <= |X1.data| && b * (K * N) + K * N <= |X2.data| &&
            i * K + K <= M * K
    ensures var r := |X1.shape|;
            var M, K, N := X1.shape[r - 2], X1.shape[r - 1], X2.shape[r - 1];
            var Y := BmmulND2Spec(X1, X2).value;
            var X1b, X2b := Chunk(X1.data, M * K, b), Chunk(X2.data, K * N, b);
            Y.data[b * (M * N) + i * N + j] == Dot(X1b, X2b, K, N, i, j, K)
  {
    var r := |X1.shape|;
    var M, K, N := X1.shape[r - 2], X1.shape[r - 1], X2.shape[r - 1];
    BmmulND2Block(X1, X2, b);
    var Y := BmmulND2Spec(X1, X2).value;
    StackedEntry(Y.data, X1.data, X2.data, M, K, N, b, i, j);
  }

  lemma KeysTransposed(K: Tensor, b: nat, j: nat)
    requires WellFormed(K) && |K.shape| >= 2
    requires var r := |K.shape|;
             b < Product(K.shape[..r - 2]) && j < K.shape[r - 2]
    ensures var r := |K.shape|;
            var Tk, dh := K.shape[r - 2], K.shape[r - 1];
            var Kt := TransposeLast(K);
            b * (dh * Tk) + dh * Tk <= |Kt.data| && b * (Tk * dh) + Tk * dh <= |K.data| &&
            forall t :: 0 <= t < dh ==> TransposedAt(Chunk(Kt.data, dh * Tk, b), Chunk(K.data, Tk * dh, b), dh, Tk, t, j)
  {
    var r := |K.shape|;
    var Bs, Tk, dh := Product(K.shape[..r - 2]), K.shape[r - 2], K.shape[r - 1];
    ProductLastTwo(K.shape);
    MulAssoc(Bs, Tk, dh);
    MulAssoc(Bs, dh, Tk);
    MulComm3(Bs, Tk, dh, 1);
    RowEnd(b, Bs, dh * Tk);
    RowEnd(b, Bs, Tk * dh);
    forall t | 0 <= t < dh
      ensures TransposedAt(Chunk(TransposeLast(K).data, dh * Tk, b), Chunk(K.data, Tk * dh, b), dh, Tk, t, j)
    {
      TransposeLastBlock(K, b, t, j);
    }
  }

  /** Entry `(i, j)` of batch `b` of `Q` times the transposed keys is the
      dot product of query row `i` and key row `j`. */
  lemma ScoreEntry(Q: Tensor, K: Tensor, b: nat, i: nat, j: nat)
    requires WellFormed(Q) && WellFormed(K) && BatchedScores(Q, K)
    requires var r := |Q.shape|;
             b < Product(Q.shape[..r - 2]) && i < Q.shape[r - 2] && j < K.shape[r - 2]
    ensures BmmulND2Spec(Q, TransposeLast(K)).Ok?
    ensures var r := |Q.shape|;
            var Tq, Tk, dh := Q.shape[r - 2], K.shape[r - 2], Q.shape[r - 1];
            var Y := BmmulND2Spec(Q, TransposeLast(K)).value;
            0 <= b * (Tq * Tk) + i * Tk + j < |Y.data| &&
            b * (Tq * dh) + Tq * dh <= |Q.data| && b * (Tk * dh) + Tk * dh <= |K.data| &&
            i * dh + dh <= Tq * dh && j * dh + dh <= Tk * dh
    ensures var r := |Q.shape|;
            var Tq, Tk, dh := Q.shape[r - 2], K.shape[r - 2], Q.shape[r - 1];
            var Y := BmmulND2Spec(Q, TransposeLast(K)).value;
            var Qb, Kb := Chunk(Q.data, Tq * dh, b), Chunk(K.data, Tk * dh, b);
            Y.data[b * (Tq * Tk) + i * Tk + j] == RowDot(Qb, Kb, dh, i, j, dh)
  {
    var r := |Q.shape|;
    var Bs, Tq, Tk, dh := Product(Q.shape[..r - 2]), Q.shape[r - 2], K.shape[r - 2], Q.shape[r - 1];
    var Kt := TransposeLast(K);
    assert Kt.shape[r - 1] == Tk && Kt.shape[r - 2] == dh;
    assert Kt.shape[..r - 2] == K.shape[..r - 2];
    assert K.shape[r - 1] == dh && |K.shape| == r;
    BmmulND2Outcome(Q, Kt);
    BatchedEntry(Q, Kt, b, i, j);
    KeysTransposed(K, b, j);
    var Qb, Kb, Ktb := Chunk(Q.data, Tq * dh, b), Chunk(K.data, Tk * dh, b), Chunk(Kt.data, dh * Tk, b);
    RowEnd(j, Tk, dh);
    DotTransposed(Qb, Ktb, Kb, dh, Tk, i, j, dh);
  }

  lemma ScaledEntry(Y: Tensor, scale: real, x: nat)
    requires scale != 0.0 && x < |Y.data|
    ensures x < |DivScalar(Y, scale).data| && DivScalar(Y, scale).data[x] == Y.data[x] / scale
  {
  }

  /** The attention score of query `i` and key `j` in batch `b` is the dot
      product of their rows divided by `scale`. */
  lemma QkScoresAt(Q: Tensor, K: Tensor, scale: real, b: nat, i: nat, j: nat)
    requires WellFormed(Q) && WellFormed(K) && scale != 0.0 && BatchedScores(Q, K)
    requires var r := |Q.shape|;
             b < Product(Q.shape[..r - 2]) && i < Q.shape[r - 2] && j < K.shape[r - 2]
    ensures QkScores(Q, K, scale).Ok?
    ensures var r := |Q.shape|;
            var Tq, Tk, dh := Q.shape[r - 2], K.shape[r - 2], Q.shape[r - 1];
            var S := QkScores(Q, K, scale).value;
            0 <= b * (Tq * Tk) + i * Tk + j < |S.data| &&
            b * (Tq * dh) + Tq * dh <= |Q.data| && b * (Tk * dh) + Tk * dh <= |K.data| &&
            i * dh + dh <= Tq * dh && j * dh + dh <= Tk * dh
    ensures var r := |Q.shape|;
            var Tq, Tk, dh := Q.shape[r - 2], K.shape[r - 2], Q.shape[r - 1];
            var S := QkScores(Q, K, scale).value;
            var Qb, Kb := Chunk(Q.data, Tq * dh, b), Chunk(K.data, Tk * dh, b);
            S.data[b * (Tq * Tk) + i * Tk + j] == RowDot(Qb, Kb, dh, i, j, dh) / scale
  {
    var r := |Q.shape|;
    var Tq, Tk := Q.shape[r - 2], K.shape[r - 2];
    var dh := Q.shape[r - 1];
    ScoreEntry(Q, K, b, i, j);
    QkScoresBatched(Q, K, scale);
    var Y := BmmulND2Spec(Q, TransposeLast(K)).value;
    ScaledEntry(Y, scale, b * (Tq * Tk) + i * Tk + j);
  }

  // ---------------------------------------------------------------------
  // applyMask

  /** Size of an axis after broadcasting two axes, or nothing when they clash. */
  function BroadcastDim(x: nat, y: nat): (o: Option<nat>)
    ensures o.Some? <==> x == y || x == 1 || y == 1
    ensures o.Some? ==> (o.value == x || x == 1) && (o.value == y || y == 1)
  {
    if x == y then Some(x) else if x == 1 then Some(y) else if y == 1 then Some(x) else None
  }

  /** The index an axis of size `dim` contributes to a broadcast element. */
  function Pick(i: nat, dim: nat): nat
  {
    if dim == 1 then 0 else i
  }

  predicate Broadcastable4(a: Shape, b: Shape)
    requires |a| == 4 && |b| == 4
  {
    forall k :: 0 <= k < 4 ==> BroadcastDim(a[k], b[k]).Some?
  }

  function BroadcastShape4(a: Shape, b: Shape): (o: Shape)
    requires |a| == 4 && |b| == 4 && Broadcastable4(a, b)
    ensures |o| == 4
    ensures forall k :: 0 <= k < 4 ==> (o[k] == a[k] || a[k] == 1) && (o[k] == b[k] || b[k] == 1)
  {
    seq(4, k requires 0 <= k < 4 => BroadcastDim(a[k], b[k]).value)
  }

  /** The element of a rank-4 tensor of shape `s` that position `[a, b, c, d]`
      of a broadcast result reads. */
  function BroadcastRead(t: Tensor, o: Shape, a: nat, b: nat, c: nat, d: nat): real
    requires WellFormed(t) && |t.shape| == 4 && |o| == 4
    requires forall k :: 0 <= k < 4 ==> (o[k] == t.shape[k] || t.shape[k] == 1)
    requires a < o[0] && b < o[1] && c < o[2] && d < o[3]
  {
    var s := t.shape;
    ProductRank4(s);
    Off4Bound(Pick(a, s[0]), Pick(b, s[1]), Pick(c, s[2]), Pick(d, s[3]), s[0], s[1], s[2], s[3]);
    t.data[Off4(Pick(a, s[0]), Pick(b, s[1]), Pick(c, s[2]), Pick(d, s[3]), s[1], s[2], s[3])]
  }

  /** `applyMask(scores, mask)`: ND4J's broadcasting `add` on the rank-4
      scores and masks of the attention layers. */
  function ApplyMask(S: Tensor, M: Tensor): (res: Result<Tensor>)
    requires WellFormed(S) && WellFormed(M) && |S.shape| == 4 && |M.shape| == 4
    ensures res.Ok? <==> Broadcastable4(S.shape, M.shape)
    ensures res.Err? ==> res.error == LibraryShape
    ensures res.Ok? ==> WellFormed(res.value) && res.value.shape == BroadcastShape4(S.shape, M.shape)
  {
    if !Broadcastable4(S.shape, M.shape) then Err(LibraryShape)
    else
      var o := BroadcastShape4(S.shape, M.shape);
      ProductRank4(o);
      Ok(Tensor(o, seq(Product(o), p requires 0 <= p < Product(o) =>
        Off4Split(p, o[0], o[1], o[2], o[3]);
        var a, b, c, d := p / o[3] / o[2] / o[1], p / o[3] / o[2] % o[1], p / o[3] % o[2], p % o[3];
        BroadcastRead(S, o, a, b, c, d) + BroadcastRead(M, o, a, b, c, d))))
  }

  /** With a `[B, 1, Tq, Tk]` mask on `[B, H, Tq, Tk]` scores, every head of
      batch `b` gets the same mask entry `[b, 0, i, j]` added. */
  lemma ApplyMaskHeads(S: Tensor, M: Tensor, b: nat, h: nat, i: nat, j: nat)
    requires WellFormed(S) && WellFormed(M) && |S.shape| == 4 && |M.shape| == 4
    requires M.shape == [S.shape[0], 1, S.shape[2], S.shape[3]]
    requires b < S.shape[0] && h < S.shape[1] && i < S.shape[2] && j < S.shape[3]
    ensures ApplyMask(S, M).Ok? && ApplyMask(S, M).value.shape == S.shape
    ensures var H, Tq, Tk := S.shape[1], S.shape[2], S.shape[3];
            0 <= Off4(b, h, i, j, H, Tq, Tk) < |S.data| &&
            0 <= Off4(b, 0, i, j, 1, Tq, Tk) < |M.data| &&
            ApplyMask(S, M).value.data[Off4(b, h, i, j, H, Tq, Tk)] ==
              S.data[Off4(b, h, i, j, H, Tq, Tk)] + M.data[Off4(b, 0, i, j, 1, Tq, Tk)]
  {
    var B, H, Tq, Tk := S.shape[0], S.shape[1], S.shape[2], S.shape[3];
    assert Broadcastable4(S.shape, M.shape);
    var o := BroadcastShape4(S.shape, M.shape);
    assert o == S.shape;
    ProductRank4(S.shape);
    ProductRank4(M.shape);
    Off4Bound(b, h, i, j, B, H, Tq, Tk);
    Off4Bound(b, 0, i, j, B, 1, Tq, Tk);
    Off4Join(b, h, i, j, H, Tq, Tk);
    var p := Off4(b, h, i, j, H, Tq, Tk);
    assert Pick(h, H) == h || H == 1;
  }
}
