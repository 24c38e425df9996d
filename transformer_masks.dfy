/** `nn.transformer.Transformer`: the valid length of every id row (a scan
    from the right for the last non-pad token) and the three attention masks
    the training forward pass builds from those lengths. */
module TransformerMasks {
  import opened Wrappers
  import opened MaskUtils

  /** Row `b` of an id matrix. */
  ghost function RowOf(ids: array2<int>, b: nat): (row: seq<int>)
    requires b < ids.Length0
    reads ids
    ensures |row| == ids.Length1 && forall t :: 0 <= t < ids.Length1 ==> row[t] == ids[b, t]
  {
    seq(ids.Length1, t requires 0 <= t < ids.Length1 reads ids => ids[b, t])
  }

  /** The length of `row` once its trailing pad ids are cut off. */
  function TrimmedLength(row: seq<int>, padId: int): nat
  {
    if |row| == 0 then 0
    else if row[|row| - 1] != padId then |row|
    else TrimmedLength(row[..|row| - 1], padId)
  }

  /** `n` is a valid length of `row`: everything from `n` on is padding and
      the token just before `n`, if any, is not. */
  predicate IsTrimmed(row: seq<int>, padId: int, n: int)
  {
    0 <= n <= |row| && (forall k :: n <= k < |row| ==> row[k] == padId) && (n > 0 ==> row[n - 1] != padId)
  }

  /** `TrimmedLength` is a valid length, and the only one. */
  lemma {:induction false} TrimmedLengthUnique(row: seq<int>, padId: int, n: int)
    ensures IsTrimmed(row, padId, TrimmedLength(row, padId))
    ensures IsTrimmed(row, padId, n) ==> n == TrimmedLength(row, padId)
  {
    if |row| > 0 && row[|row| - 1] == padId {
      var init := row[..|row| - 1];
      TrimmedLengthUnique(init, padId, n);
      if IsTrimmed(row, padId, n) {
        assert n < |row|;
        assert IsTrimmed(init, padId, n);
      }
    }
  }

  /** An all-pad row has length 0, and pad ids before the last real token
      count toward the length. */
  lemma TrimmedLengthExamples(row: seq<int>, padId: int, t: nat)
    ensures (forall k :: 0 <= k < |row| ==> row[k] == padId) ==> TrimmedLength(row, padId) == 0
    ensures t < |row| && row[t] != padId ==> t < TrimmedLength(row, padId)
  {
    TrimmedLengthUnique(row, padId, 0);
  }

  /** `lengthsFromIds(ids, padId)`: for each row, scan right to left and stop
      at the first id that is not `padId`. */
  method LengthsFromIds(ids: array2<int>, padId: int) returns (lens: array<int>)
    ensures fresh(lens) && lens.Length == ids.Length0
    ensures forall b :: 0 <= b < ids.Length0 ==> lens[b] == TrimmedLength(RowOf(ids, b), padId)
  {
    var B, T := ids.Length0, ids.Length1;
    lens := new int[B];
    for b := 0 to B
      invariant forall b' :: 0 <= b' < b ==> lens[b'] == TrimmedLength(RowOf(ids, b'), padId)
    {
      var len := T;
      var t := T - 1;
      while t >= 0
        invariant -1 <= t < T
        invariant forall k :: t < k < T ==> ids[b, k] == padId
        invariant len == if t == -1 && T > 0 then 0 else T
      {
        var v := ids[b, t];
        if v != padId {
          len := t + 1;
          break;
        }
        if t == 0 {
          len := 0;
        }
        t := t - 1;
      }
      ghost var row := RowOf(ids, b);
      assert IsTrimmed(row, padId, len);
      TrimmedLengthUnique(row, padId, len);
      lens[b] := len;
    }
  }

  /** Every length is in `[0, T]`, so no mask built from it is rejected. */
  lemma LengthsFit(ids: array2<int>, padId: int, b: nat)
    requires b < ids.Length0
    ensures 0 <= TrimmedLength(RowOf(ids, b), padId) <= ids.Length1
  {
    TrimmedLengthUnique(RowOf(ids, b), padId, 0);
  }

  /** `Tensor.add` of two masks of the same shape. */
  method AddMasks(x: array4<real>, y: array4<real>) returns (z: array4<real>)
    requires x.Length0 == y.Length0 && x.Length1 == y.Length1 && x.Length2 == y.Length2 && x.Length3 == y.Length3
    ensures fresh(z)
    ensures z.Length0 == x.Length0 && z.Length1 == x.Length1 && z.Length2 == x.Length2 && z.Length3 == x.Length3
    ensures forall b, h, i, j :: 0 <= b < x.Length0 && 0 <= h < x.Length1 && 0 <= i < x.Length2 && 0 <= j < x.Length3 ==>
              z[b, h, i, j] == x[b, h, i, j] + y[b, h, i, j]
  {
    z := new real[x.Length0, x.Length1, x.Length2, x.Length3];
    forall b, h, i, j | 0 <= b < x.Length0 && 0 <= h < x.Length1 && 0 <= i < x.Length2 && 0 <= j < x.Length3 {
      z[b, h, i, j] := x[b, h, i, j] + y[b, h, i, j];
    }
  }

  /** The decoder self-attention entry is 0 exactly when key `j` is neither
      in the future of query `i` nor padding, and negative otherwise. */
  lemma DecSelfEntry(i: int, j: int, len: int)
    ensures CausalEntry(i, j) + PadEntry(len, j) == 0.0 <==> j <= i && j < len
    ensures CausalEntry(i, j) + PadEntry(len, j) != 0.0 <==> CausalEntry(i, j) + PadEntry(len, j) < 0.0
  {
  }

  /** The masks of `forward(srcIds, tgtIds)`: `encMask [B, 1, S, S]` and
      `crossMask [B, 1, T, S]` from the source lengths, and
      `decSelfMask [B, 1, T, T]`, the causal mask plus the target padding
      mask. The lengths always fit, so none of the mask builders throws. */
  method ForwardMasks(srcIds: array2<int>, tgtIds: array2<int>, padId: int)
    returns (enc: array4<real>, decSelf: array4<real>, cross: array4<real>)
    requires srcIds.Length0 == tgtIds.Length0
    ensures fresh(enc) && fresh(decSelf) && fresh(cross)
    ensures var B, S, T := srcIds.Length0, srcIds.Length1, tgtIds.Length1;
            enc.Length0 == B && enc.Length1 == 1 && enc.Length2 == S && enc.Length3 == S &&
            decSelf.Length0 == B && decSelf.Length1 == 1 && decSelf.Length2 == T && decSelf.Length3 == T &&
            cross.Length0 == B && cross.Length1 == 1 && cross.Length2 == T && cross.Length3 == S
    ensures forall b, q, k :: 0 <= b < srcIds.Length0 && 0 <= q < srcIds.Length1 && 0 <= k < srcIds.Length1 ==>
              enc[b, 0, q, k] == PadEntry(TrimmedLength(RowOf(srcIds, b), padId), k)
    ensures forall b, i, j :: 0 <= b < tgtIds.Length0 && 0 <= i < tgtIds.Length1 && 0 <= j < tgtIds.Length1 ==>
              decSelf[b, 0, i, j] == CausalEntry(i, j) + PadEntry(TrimmedLength(RowOf(tgtIds, b), padId), j)
    ensures forall b, q, k :: 0 <= b < srcIds.Length0 && 0 <= q < tgtIds.Length1 && 0 <= k < srcIds.Length1 ==>
              cross[b, 0, q, k] == PadEntry(TrimmedLength(RowOf(srcIds, b), padId), k)
  {
    var srcLens := LengthsFromIds(srcIds, padId);
    var tgtLens := LengthsFromIds(tgtIds, padId);
    var B, S, T := srcIds.Length0, srcIds.Length1, tgtIds.Length1;
    forall b | 0 <= b < B
      ensures 0 <= srcLens[b] <= S && 0 <= tgtLens[b] <= T
    {
      LengthsFit(srcIds, padId, b);
      LengthsFit(tgtIds, padId, b);
    }
    var encRes := PadMaskFromLength(srcLens, S, S);
    enc := encRes.value;
    var causal := CausalMask(B, T);
    var padRes := PadMaskFromLength(tgtLens, T, T);
    decSelf := AddMasks(causal, padRes.value);
    var crossRes := PadMaskFromLength(srcLens, T, S);
    cross := crossRes.value;
  }
}
