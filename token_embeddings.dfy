/** `nn.transformer.embeddings.TokenEmbeddings`: an embedding table `E` of
    shape `[d_model, V]` (column `v` is the vector of token `v`). `Forward`
    gathers and scales the columns of a `[B, T]` id tensor and caches the
    flattened ids; `CalcGradients` scatter-adds every non-pad token's
    upstream gradient row into that token's column of a fresh buffer. */
module Embeddings {
  import opened Wrappers
  import opened IndexArith
  import opened TensorData
  import opened MaskUtils
  import opened Parameters

  /** Entry `(r, c)` of the scatter-add buffer after the first `upto`
      positions: the sum of `s * dY[i, r]` over the positions `i < upto`
      whose id is `c`, with the pad column left out. */
  function ScatterSum(ids: seq<int>, dy: seq<real>, d: nat, padId: int, s: real, r: nat, c: int, upto: nat): real
    requires upto <= |ids| && r < d && |ids| * d <= |dy|
  {
    if upto == 0 then 0.0
    else
      RowEnd(upto - 1, |ids|, d);
      ScatterSum(ids, dy, d, padId, s, r, c, upto - 1) +
        (if ids[upto - 1] == c && c != padId then s * dy[(upto - 1) * d + r] else 0.0)
  }

  /** One more position adds its row to its own column only. */
  lemma ScatterStep(ids: seq<int>, dy: seq<real>, d: nat, padId: int, s: real, r: nat, c: int, i: nat)
    requires i < |ids| && r < d && |ids| * d <= |dy|
    ensures 0 <= i * d + r < |dy|
    ensures ScatterSum(ids, dy, d, padId, s, r, c, i + 1) ==
            ScatterSum(ids, dy, d, padId, s, r, c, i) + (if ids[i] == c && c != padId then s * dy[i * d + r] else 0.0)
  {
    CellBound(i, r, |ids|, d);
    assert i + 1 - 1 == i;
  }

  /** The pad column of the buffer is zero however often `padId` occurs. */
  lemma {:induction false} ScatterPadColumn(ids: seq<int>, dy: seq<real>, d: nat, padId: int, s: real, r: nat, upto: nat)
    requires upto <= |ids| && r < d && |ids| * d <= |dy|
    ensures ScatterSum(ids, dy, d, padId, s, r, padId, upto) == 0.0
  {
    if upto > 0 {
      ScatterPadColumn(ids, dy, d, padId, s, r, upto - 1);
    }
  }

  /** The column of an id that does not occur stays zero. */
  lemma {:induction false} ScatterUnseenColumn(ids: seq<int>, dy: seq<real>, d: nat, padId: int, s: real, r: nat, c: int, upto: nat)
    requires upto <= |ids| && r < d && |ids| * d <= |dy|
    requires forall i :: 0 <= i < upto ==> ids[i] != c
    ensures ScatterSum(ids, dy, d, padId, s, r, c, upto) == 0.0
  {
    if upto > 0 {
      ScatterUnseenColumn(ids, dy, d, padId, s, r, c, upto - 1);
    }
  }

  /** A token that occurs exactly once contributes its own row, scaled. */
  lemma {:induction false} ScatterSingleColumn(ids: seq<int>, dy: seq<real>, d: nat, padId: int, s: real, r: nat, k: nat, upto: nat)
    requires upto <= |ids| && r < d && |ids| * d <= |dy| && k < upto && ids[k] != padId
    requires forall i :: 0 <= i < upto && i != k ==> ids[i] != ids[k]
    ensures k * d + r < |dy|
    ensures ScatterSum(ids, dy, d, padId, s, r, ids[k], upto) == s * dy[k * d + r]
  {
    CellBound(k, r, |ids|, d);
    if upto - 1 == k {
      ScatterUnseenColumn(ids, dy, d, padId, s, r, ids[k], k);
    } else {
      ScatterSingleColumn(ids, dy, d, padId, s, r, k, upto - 1);
    }
  }

  /** The `[d, V]` gradient buffer `calcGradients` builds. */
  function ScatterGrad(ids: seq<int>, dy: seq<real>, d: nat, V: nat, padId: int, s: real): (G: Tensor)
    requires |ids| * d <= |dy|
    ensures WellFormed(G) && G.shape == [d, V] && |G.data| == d * V
  {
    ProductRank2([d, V]);
    Tensor([d, V], seq(d * V, p requires 0 <= p < d * V =>
      Split(p, d, V);
      ScatterSum(ids, dy, d, padId, s, p / V, p % V, |ids|)))
  }

  /** Entry `(r, c)` of the buffer is the scatter sum of column `c`. */
  lemma ScatterGradAt(ids: seq<int>, dy: seq<real>, d: nat, V: nat, padId: int, s: real, r: nat, c: nat)
    requires |ids| * d <= |dy| && r < d && c < V
    ensures 0 <= r * V + c < d * V
    ensures ScatterGrad(ids, dy, d, V, padId, s).data[r * V + c] == ScatterSum(ids, dy, d, padId, s, r, c, |ids|)
  {
    CellBound(r, c, d, V);
    Join(r, c, V);
  }

  /** Every id lies in `[0, V)`. */
  predicate IdsInRange(ids: seq<int>, V: int)
  {
    forall i :: 0 <= i < |ids| ==> 0 <= ids[i] < V
  }

  /** The looked-up embeddings: row `i` of the `[n, d]` result is column
      `ids[i]` of the `[d, V]` table, times `scale`. */
  function Gather(E: Tensor, ids: seq<int>, scale: real): (out: seq<real>)
    requires WellFormed(E) && |E.shape| == 2 && IdsInRange(ids, E.shape[1])
    ensures |out| == |ids| * E.shape[0]
  {
    var d, V := E.shape[0], E.shape[1];
    ProductRank2(E.shape);
    seq(|ids| * d, p requires 0 <= p < |ids| * d =>
      Split(p, |ids|, d);
      CellBound(p % d, ids[p / d], d, V);
      E.data[(p % d) * V + ids[p / d]] * scale)
  }

  /** Component `k` of token `i`'s embedding is entry `(k, ids[i])` of the
      table, times `scale`. */
  lemma GatherAt(E: Tensor, ids: seq<int>, scale: real, i: nat, k: nat)
    requires WellFormed(E) && |E.shape| == 2 && IdsInRange(ids, E.shape[1])
    requires i < |ids| && k < E.shape[0]
    ensures 0 <= i * E.shape[0] + k < |ids| * E.shape[0]
    ensures 0 <= k * E.shape[1] + ids[i] < |E.data|
    ensures Gather(E, ids, scale)[i * E.shape[0] + k] == E.data[k * E.shape[1] + ids[i]] * scale
  {
    var d, V := E.shape[0], E.shape[1];
    ProductRank2(E.shape);
    CellBound(i, k, |ids|, d);
    CellBound(k, ids[i], d, V);
    Join(i, k, d);
  }

  class TokenEmbeddings {
    const vocabSize: nat
    const dModel: nat
    const padId: int
    /** `sqrt(d_model)`: the caller supplies the non-negative root. */
    const scale: real
    const E: Parameter
    const isTrainable: bool
    const embDropProb: real

    // Caches of the last forward pass.
    var B: nat
    var T: nat
    var flatIds: Option<seq<int>>
    var cEmbDrop: Option<Tensor>

    /** `E` holds a well-formed `[d, V]` table, and the cached ids have one
        entry per cached position. */
    predicate Valid()
      reads this, E
    {
      E.Valid() && |E.data.shape| == 2 &&
      (flatIds.Some? ==> |flatIds.value| == B * T) &&
      (cEmbDrop.Some? ==> WellFormed(cEmbDrop.value))
    }

    /** `new TokenEmbeddings(V, d, padId, eInit, trainable, p)` with the
        initial table `init = eInit.init(d, V)`. */
    constructor (vocabSize: nat, dModel: nat, padId: int, init: Tensor, isTrainable: bool, embDropProb: real, scale: real)
      requires WellFormed(init) && init.shape == [dModel, vocabSize]
      requires scale >= 0.0 && scale * scale == dModel as real
      ensures Valid() && fresh(E)
      ensures this.vocabSize == vocabSize && this.dModel == dModel && this.padId == padId && this.scale == scale
      ensures E.name == "token_embeddings.param" && E.data == init && E.grad == None && E.trainable == isTrainable
      ensures flatIds == None && cEmbDrop == None
    {
      this.vocabSize := vocabSize;
      this.dModel := dModel;
      this.padId := padId;
      this.scale := scale;
      this.isTrainable := isTrainable;
      this.embDropProb := embDropProb;
      this.E := new Parameter("token_embeddings.param", init, isTrainable);
      this.B := 0;
      this.T := 0;
      this.flatIds := None;
      this.cEmbDrop := None;
    }

    /** `forward(X, training)` for ids `X` of shape `[B, T]` (stored as
        doubles, cast to `int`). A rank other than 2 throws before any cache
        is touched. Otherwise `B`, `T` and the row-major ids are cached
        first; then the column lookup throws on an id outside `[0, V)`, and
        the reshape to `[B, T, d_model]` throws when the table's first axis
        gives the wrong size. In training the output is multiplied by the
        dropout mask built from `draws`, which is cached. */
    method Forward(X: Tensor, training: bool, draws: seq<bool>) returns (res: Result<Tensor>)
      requires Valid() && WellFormed(X)
      requires training ==> |draws| == |X.data| * dModel
      modifies this
      ensures Valid() && unchanged(E)
      ensures |X.shape| != 2 ==> res == Err(IllegalArgument) && unchanged(this)
      ensures |X.shape| == 2 ==>
                B == X.shape[0] && T == X.shape[1] && |X.data| == B * T &&
                flatIds.Some? && |flatIds.value| == B * T &&
                forall b, t :: 0 <= b < B && 0 <= t < T ==>
                  CellIndexOk(b, t, B, T) && flatIds.value[b * T + t] == IdAt(X, b, t)
      ensures |X.shape| == 2 ==>
                (res.Ok? <==> IdsInRange(flatIds.value, E.data.shape[1]) && B * T * E.data.shape[0] == B * T * dModel)
      ensures |X.shape| == 2 && res.Err? ==> res.error == LibraryShape && cEmbDrop == old(cEmbDrop)
      ensures res.Ok? ==>
                var rows := Tensor([B, T, dModel], Gather(E.data, flatIds.value, scale));
                WellFormed(rows) &&
                (training ==> cEmbDrop == Some(DropoutMaskLike(rows, embDropProb, draws)) &&
                              res == Mul(rows, cEmbDrop.value)) &&
                (!training ==> cEmbDrop == None && res == Ok(rows))
    {
      if |X.shape| != 2 {
        return Err(IllegalArgument);
      }
      var nB, nT := X.shape[0], X.shape[1];
      var ids := FlatIds(X);
      B, T, flatIds := nB, nT, Some(ids);
      var table := E.data;
      if !IdsInRange(ids, table.shape[1]) {
        return Err(LibraryShape);
      }
      var rows := Gather(table, ids, scale);
      if |rows| != B * T * dModel {
        return Err(LibraryShape);
      }
      ProductRank3([B, T, dModel]);
      var out := Tensor([B, T, dModel], rows);
      if training {
        var mask := DropoutMaskLike(out, embDropProb, draws);
        cEmbDrop := Some(mask);
        return Mul(out, mask);
      }
      cEmbDrop := None;
      return Ok(out);
    }

    /** `calcGradients(dY, accumulate, scale)`: scatter-add `dY` (masked by
        the cached dropout mask) into a fresh `[d, V]` buffer, then add it
        to `E`'s gradient when accumulating onto an existing one, or store
        it otherwise. Returns `[B, T]` zeros: there is no layer below. */
    method CalcGradients(dY: Tensor, accumulate: bool, gradScale: real) returns (res: Result<Tensor>)
      requires Valid() && WellFormed(dY)
      modifies E
      ensures Valid() && unchanged(this)
      ensures E.data == old(E.data) && E.trainable == old(E.trainable)
      ensures var ng := NewGrad(dY, cEmbDrop, B, T, dModel, E.data, flatIds, padId, gradScale * scale);
              var onto := accumulate && old(E.grad).Some?;
              (ng.Err? ==> res == Err(ng.error) && E.grad == old(E.grad)) &&
              (ng.Ok? && !onto ==> res.Ok? && E.grad == Some(ng.value)) &&
              (ng.Ok? && onto ==>
                 (res.Ok? <==> Accumulated(old(E.grad), ng.value).Ok?) &&
                 (res.Ok? ==> E.grad == Some(Accumulated(old(E.grad), ng.value).value)) &&
                 (res.Err? ==> res.error == LibraryShape && E.grad == old(E.grad)))
      ensures res.Ok? ==> res.value == Fill(0.0, [B, T])
    {
      var dy := dY;
      if cEmbDrop.Some? {
        var masked := Mul(dY, cEmbDrop.value);
        if masked.Err? {
          return Err(masked.error);
        }
        dy := masked.value;
      }
      if |dy.data| != B * T * dModel {
        return Err(LibraryShape);
      }
      var table := E.data;
      if table.shape[0] != dModel {
        return Err(IllegalState);
      }
      if flatIds.None? {
        return Err(NullPointer);
      }
      var ids := flatIds.value;
      var d, V := dModel, table.shape[1];
      var s := gradScale * scale;
      var sc := ScatterAdd(ids, dy.data, d, V, padId, s);
      if sc.Err? {
        return Err(sc.error);
      }
      var G := sc.value;
      if accumulate && E.grad.Some? {
        var o := E.AddGrad(G);
        if o.Fail? {
          return Err(o.error);
        }
      } else {
        E.SetGrad(G);
      }
      return Ok(Fill(0.0, [B, T]));
    }

    /** `zeroGrad()`: drops `E`'s gradient. The forward caches are kept. */
    method ZeroGrad()
      requires Valid()
      modifies E
      ensures Valid() && unchanged(this)
      ensures E.grad == None && E.data == old(E.data) && E.trainable == old(E.trainable)
    {
      E.ZeroGrad();
    }
  }

  /** `X.reshape('c', B * T)` read back as ints: `(int) getDouble(i)` of
      every element, in row-major order. */
  method FlatIds(X: Tensor) returns (ids: seq<int>)
    requires WellFormed(X) && |X.shape| == 2
    ensures |ids| == |X.data| == X.shape[0] * X.shape[1]
    ensures forall b, t :: 0 <= b < X.shape[0] && 0 <= t < X.shape[1] ==>
              CellIndexOk(b, t, X.shape[0], X.shape[1]) && ids[b * X.shape[1] + t] == IdAt(X, b, t)
  {
    var nB, nT := X.shape[0], X.shape[1];
    ProductRank2(X.shape);
    var a := new int[nB * nT];
    for i := 0 to nB * nT
      invariant forall j :: 0 <= j < i ==> a[j] == Truncate(X.data[j])
    {
      a[i] := Truncate(X.data[i]);
    }
    ids := a[..];
    forall b, t | 0 <= b < nB && 0 <= t < nT
      ensures CellIndexOk(b, t, nB, nT) && ids[b * nT + t] == IdAt(X, b, t)
    {
      CellBound(b, t, nB, nT);
    }
  }

  /** The scatter-add of `calcGradients`: a fresh `[d, V]` zero buffer
      receives `s * dy[i, :]` in column `ids[i]` for every non-PAD id; an id
      outside `[0, V)` fails the indexed view. */
  method ScatterAdd(ids: seq<int>, dy: seq<real>, d: nat, V: nat, padId: int, s: real) returns (res: Result<Tensor>)
    requires |ids| * d <= |dy|
    ensures res.Ok? <==> NonPadInRange(ids, padId, V)
    ensures res.Err? ==> res.error == LibraryShape
    ensures res.Ok? ==> res.value == ScatterGrad(ids, dy, d, V, padId, s)
  {
    var g := new real[d, V]((_, _) => 0.0);
    for i := 0 to |ids|
      invariant NonPadInRange(ids[..i], padId, V)
      invariant forall r, c :: 0 <= r < d && 0 <= c < V ==> g[r, c] == ScatterSum(ids, dy, d, padId, s, r, c, i)
    {
      var id := ids[i];
      forall r, c | 0 <= r < d && 0 <= c < V {
        ScatterStep(ids, dy, d, padId, s, r, c, i);
      }
      if id == padId {
        continue;
      }
      if id < 0 || id >= V {
        NonPadInRangeStops(ids, padId, V, i);
        return Err(LibraryShape);
      }
      RowEnd(i, |ids|, d);
      forall r | 0 <= r < d {
        g[r, id] := g[r, id] + s * dy[i * d + r];
      }
    }
    assert ids[..|ids|] == ids;
    ScatterGradFromBuffer(g, ids, dy, d, V, padId, s);
    return Ok(FromArray2(g));
  }

  /** Every id other than `padId` lies in `[0, V)`. */
  predicate NonPadInRange(ids: seq<int>, padId: int, V: int)
  {
    forall i :: 0 <= i < |ids| ==> ids[i] == padId || 0 <= ids[i] < V
  }

  lemma NonPadInRangeStops(ids: seq<int>, padId: int, V: int, i: nat)
    requires i < |ids| && ids[i] != padId && !(0 <= ids[i] < V)
    ensures !NonPadInRange(ids, padId, V)
  {
  }

  /** The new gradient buffer of `calcGradients`, or the exception it throws
      first: the dropout-mask product, the reshape of `dY` to
      `[B*T, d_model]`, the table check, the missing ids of a layer never
      run forward, and the column view of an out-of-range id. */
  function NewGrad(dY: Tensor, mask: Option<Tensor>, B: nat, T: nat, dModel: nat, E: Tensor,
                   ids: Option<seq<int>>, padId: int, s: real): (res: Result<Tensor>)
    requires WellFormed(dY) && (mask.Some? ==> WellFormed(mask.value)) && |E.shape| == 2
    requires ids.Some? ==> |ids.value| == B * T
    ensures res.Err? ==> res.error in {LibraryShape, IllegalState, NullPointer}
    ensures res.Ok? ==> E.shape[0] == dModel && ids.Some? && NonPadInRange(ids.value, padId, E.shape[1]) &&
                        WellFormed(res.value) && res.value.shape == E.shape
  {
    var dy := if mask.Some? then Mul(dY, mask.value) else Ok(dY);
    if dy.Err? then Err(dy.error)
    else if |dy.value.data| != B * T * dModel then Err(LibraryShape)
    else if E.shape[0] != dModel then Err(IllegalState)
    else if ids.None? then Err(NullPointer)
    else if !NonPadInRange(ids.value, padId, E.shape[1]) then Err(LibraryShape)
    else Ok(ScatterGrad(ids.value, dy.value.data, dModel, E.shape[1], padId, s))
  }

  lemma ScatterGradFromBuffer(g: array2<real>, ids: seq<int>, dy: seq<real>, d: nat, V: nat, padId: int, s: real)
    requires g.Length0 == d && g.Length1 == V && |ids| * d <= |dy|
    requires forall r, c :: 0 <= r < d && 0 <= c < V ==> g[r, c] == ScatterSum(ids, dy, d, padId, s, r, c, |ids|)
    ensures FromArray2(g) == ScatterGrad(ids, dy, d, V, padId, s)
  {
    var F, G := FromArray2(g), ScatterGrad(ids, dy, d, V, padId, s);
    ProductRank2([d, V]);
    forall p | 0 <= p < d * V
      ensures F.data[p] == G.data[p]
    {
      Split(p, d, V);
      var r, c := p / V, p % V;
      FromArray2At(g, r, c);
      ScatterGradAt(ids, dy, d, V, padId, s, r, c);
    }
    assert F.data == G.data;
  }

  /** In the gradient buffer the pad column is zero, and so is the column
      of every id that no position holds. */
  lemma ScatterGradColumns(ids: seq<int>, dy: seq<real>, d: nat, V: nat, padId: int, s: real, r: nat, c: nat)
    requires |ids| * d <= |dy| && r < d && c < V
    ensures 0 <= r * V + c < d * V
    ensures c == padId ==> ScatterGrad(ids, dy, d, V, padId, s).data[r * V + c] == 0.0
    ensures (forall i :: 0 <= i < |ids| ==> ids[i] != c) ==> ScatterGrad(ids, dy, d, V, padId, s).data[r * V + c] == 0.0
  {
    ScatterGradAt(ids, dy, d, V, padId, s, r, c);
    if c == padId {
      ScatterPadColumn(ids, dy, d, padId, s, r, |ids|);
    }
    if forall i :: 0 <= i < |ids| ==> ids[i] != c {
      ScatterUnseenColumn(ids, dy, d, padId, s, r, c, |ids|);
    }
  }
}
