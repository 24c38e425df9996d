# nd4j-transformer: the index and bookkeeping core, in Dafny

This project models the integer, index and bookkeeping logic of a small
transformer training framework built on ND4J. The floating-point layer
mathematics is delegated to the library and is not modelled. What is
modelled is the logic that decides shapes, indices, masks and control flow.

- **`tensor.Tensor`** (module `Tensors`). Axis normalisation,
  permutation validation, the three branches of `transpose(int...)` with
  the in-place rewriting of the caller's `dims` array, `matmul`'s rank
  dispatch, `concat`'s argument checks, `slice`'s index vector,
  `arange`'s INT8 storage, and `getShapeToString`.
- **`tensor.BatchedOps`** (module `BatchedOps`). The argument checks,
  batch counts and output shapes of `mmulND2` and `bmmulND2`. The data of
  both is a stack of per-batch matrix products.
- **`nn.layers.attention.AttentionOps`** (module `AttentionOps`). The
  `[B, T, d] <-> [B, H, T, d/H]` layout of `splitHeads` and `mergeHeads`
  and their round trip. Also the shapes and entries of `qkScores` and the
  broadcasting of `applyMask`.
- **`nn.mask.MaskUtils`** (module `MaskUtils`). The causal masks, the
  padding mask with its range check, the 0/1 length mask and the
  degenerate cases of the dropout mask.
- **`nn.transformer.Transformer`** (module `TransformerMasks`). The
  right-to-left pad scan `lengthsFromIds` and the composition of the
  encoder, decoder-self and cross masks in `forward`.
- **`nn.core.Parameter`** (module `Parameters`). A class whose gradient
  buffer is absent, set, accumulated or cleared.
- **`nn.transformer.embeddings.TokenEmbeddings`** (module `Embeddings`).
  The row-major id flattening and table lookup of `forward`, and the
  scatter-add of `calcGradients`. That scatter-add skips padding ids and
  then accumulates into or overwrites the stored gradient.
- **`nn.transformer.Generator`** (module `Generator`). Greedy decoding
  with the model as a next-token oracle, and `validSequenceLength`.
- **`nn.trainer.ToySeq2SeqDataset`** (module `ToyData`). The layout of
  `src`, `tgtIn` and `tgtOut` for the copy and reverse tasks, and the
  batch copies.
- **`nn.trainer.Trainer`** (module `Training`). The shuffle, the batch
  partition, token-accuracy counting and the order of the optimisation
  calls in `trainEpoch`.

Representation:

- A tensor is `TensorData.Tensor(shape, data)`: a shape and a row-major
  ('c' order) buffer. A reshape in 'c' order keeps the buffer and replaces
  the shape.
- Element values are exact `real`s. The mask constant `NEG_INF` is
  `-10000.0`. The decoder's ban penalty is `-1e9`.
- Java exceptions become `Wrappers.Error` values inside `Result` or
  `Outcome`. `LibraryShape` stands for a shape error that ND4J itself
  raises.
- Freshly allocated buffers that loops fill (masks, dataset rows, the
  decode buffer, the shuffle order) are Dafny arrays.
- Random draws, the model's logits and predictions, and the loss values
  are parameters of the operations that use them.

Source paths below are relative to the repository root.

## Model

| member | source | states |
|---|---|---|
| Tensors.NormalizeAxis | src/main/java/tensor/Tensor.java:474-479 | succeeds exactly when `-r <= ax < r`; the result lies in `[0, r)` and is `ax` or `ax + r`; otherwise IllegalArgumentException |
| Tensors.ValidatePermutation | src/main/java/tensor/Tensor.java:481-487 | passes exactly when every entry is in `[0, r)` and no entry repeats; otherwise IllegalArgumentException |
| Tensors.Identity | src/main/java/tensor/Tensor.java:464-468 | the identity of length `r` is a permutation of `0..r-1` |
| Tensors.Exchange | src/main/java/tensor/Tensor.java:464-472 | the identity with `a` and `b` exchanged is a permutation; it maps `a` to `b` and `b` to `a` and fixes every other axis |
| Tensors.DefaultPerm | src/main/java/tensor/Tensor.java:464-468 | returns a fresh array holding `0, 1, ..., r-1` |
| Tensors.Swap | src/main/java/tensor/Tensor.java:470-472 | exchanges entries `i` and `j` in place and leaves every other entry unchanged |
| Tensors.Normalized | src/main/java/tensor/Tensor.java:138 | every axis of an in-range list is replaced by its normalised value |
| Tensors.TransposePlan | src/main/java/tensor/Tensor.java:126-156 | the only exception `transpose(int...)` throws is IllegalArgumentException, and every permutation it passes on has one entry per axis |
| Tensors.RewrittenAllValid | src/main/java/tensor/Tensor.java:138 | when every axis is in range, the rewriting loop leaves the normalised list |
| Tensors.RewrittenStops | src/main/java/tensor/Tensor.java:138 | when axis `i` is the first out of range, the loop has normalised the entries before it and left the rest untouched |
| Tensors.NormalizeInPlace | src/main/java/tensor/Tensor.java:138 | rewrites `dims` in place; reports whether all axes were in range; the array ends as the loop leaves it, and fully normalised when all were in range |
| Tensors.StoppedAt | src/main/java/tensor/Tensor.java:138 | a loop stopped at an out-of-range axis leaves the list not in range and equal to the rewritten list |
| Tensors.Transpose | src/main/java/tensor/Tensor.java:126-156 | returns the plan the rank and axes determine (`Same`, a permutation, or IllegalArgumentException) and leaves the caller's `dims` rewritten as the source does |
| Tensors.TransposeNoAxes | src/main/java/tensor/Tensor.java:129-135 | an explicit empty (or null) axis array: rank below 2 is returned unchanged, otherwise the permutation exchanges the last two axes. A call `transpose()` with no arguments binds to the no-argument overload at lines 121-123, which is ND4J's full reversal and is not this branch |
| Tensors.TransposeTwoAxes | src/main/java/tensor/Tensor.java:140-147 | two axes that normalise to the same axis give `Same`; otherwise the permutation exchanges exactly those two axes |
| Tensors.TransposeRejects | src/main/java/tensor/Tensor.java:137-155 | fails exactly when an axis is out of range, when there are `r` axes that are not a permutation, or when the count is neither 0, 2 nor `r`; the error is IllegalArgumentException |
| Tensors.TransposePermutes | src/main/java/tensor/Tensor.java:149-153 | every permutation passed on to `permute` is a permutation of all `r` axes |
| Tensors.PermuteShape | src/main/java/tensor/Tensor.java:152 | axis `i` of the permuted shape is axis `perm[i]` of the input |
| Tensors.TransposeLastAxes | src/main/java/tensor/Tensor.java:140-147 | `transpose(-1, -2)` exchanges the last two axes on rank at least 2 and fails below |
| Tensors.TransposeHeadAxes | src/main/java/tensor/Tensor.java:140-147 | `transpose(-3, -2)` exchanges axes `r-3` and `r-2` on rank at least 3 and fails below |
| Tensors.Gemm | src/main/java/tensor/Tensor.java:218-222 | two matrices multiply exactly when the inner sizes agree; the result is `[M, N]` |
| Tensors.Matmul | src/main/java/tensor/Tensor.java:214-232 | succeeds exactly for 2D x 2D with matching inner sizes, rank >= 3 x 2D accepted by `mmulND2`, or rank >= 3 x rank >= 3 accepted by `bmmulND2`; the result shape is the leading shape followed by the right operand's last size |
| Tensors.MatmulStacks | src/main/java/tensor/Tensor.java:226-228 | the stack-times-stack branch succeeds exactly when `bmmulND2` accepts the shapes, with the left leading shape followed by the right operand's last size |
| Tensors.Concat | src/main/java/tensor/Tensor.java:64-78 | a null or empty array gives IllegalArgumentException; a null first tensor gives NullPointerException; a null later tensor gives IllegalArgumentException; otherwise a negative axis is shifted by the first tensor's rank (not range-checked) and all tensors are passed on in order |
| Tensors.SliceIndices | src/main/java/tensor/Tensor.java:410-418 | succeeds exactly when `dim` is an axis; every axis is `all()` except the normalised `dim`, which is `interval(start, end)` |
| Tensors.ToInt8 | src/main/java/tensor/Tensor.java:81 | the narrowing to a signed byte lies in `[-128, 128)`, is congruent to the input modulo 256, and is the identity on that range |
| Tensors.Arange | src/main/java/tensor/Tensor.java:80-82 | `arange(start, end)` has `end - start` entries; entry `i` is `start + i` narrowed to INT8 |
| Tensors.DecimalString | src/main/java/tensor/Tensor.java:454 | a dimension prints as a non-empty string of decimal digits |
| Tensors.DecimalRoundTrip | src/main/java/tensor/Tensor.java:454 | reading a printed dimension back gives the dimension |
| Tensors.ShapeToString | src/main/java/tensor/Tensor.java:450-460 | the string is `[`, the dimensions separated by `, `, then `]` |
| Tensors.LastComma | src/main/java/tensor/Tensor.java:450-460 | a helper of the parser that reads a printed shape back (line 455 only writes `, `): the position found is a comma, or -1 |
| Tensors.JoinDimsStep | src/main/java/tensor/Tensor.java:453-456 | one more dimension appends its separator (none before the first) and its decimal form |
| Tensors.JoinDimsRoundTrip | src/main/java/tensor/Tensor.java:453-456 | the comma-separated dimensions read back to the same list |
| Tensors.ShapeStringRoundTrip | src/main/java/tensor/Tensor.java:450-460 | distinct shapes print differently: the printed shape reads back to the shape |
| BatchedOps.BatchCount | src/main/java/tensor/BatchedOps.java:25-26 | the loop computes the product of the leading `n` dimensions |
| BatchedOps.MmulND2Spec | src/main/java/tensor/BatchedOps.java:12-41 | succeeds exactly when X has rank >= 3, W has rank 2 and W's rows equal X's last size; failure is IllegalArgumentException; the result is X's shape with the last size replaced by `W.size(1)` |
| BatchedOps.MmulND2 | src/main/java/tensor/BatchedOps.java:12-41 | the method computes `MmulND2Spec` |
| BatchedOps.MmulND2PerBatch | src/main/java/tensor/BatchedOps.java:25-40 | result slice `b` is slice `b` of X times W, for every `b` below the batch count |
| BatchedOps.BatchProducts | src/main/java/tensor/BatchedOps.java:72-81 | one `[M, N]` product per batch |
| BatchedOps.BmmulND2Spec | src/main/java/tensor/BatchedOps.java:44-88 | `bmmulND2` throws only IllegalArgumentException or ArithmeticException, and a result keeps the operands' rank, which is at least 3 |
| BatchedOps.BmmulND2Outcome | src/main/java/tensor/BatchedOps.java:45-65 | succeeds exactly when the ranks are equal and >= 3, the leading sizes agree, `K == K2` and the batch count fits an `int`; the first three failures are IllegalArgumentException and an overflowing count is ArithmeticException |
| BatchedOps.BmmulND2Shape | src/main/java/tensor/BatchedOps.java:83-87 | the result shape is X1's leading sizes followed by `M, N` |
| BatchedOps.BmmulND2Block | src/main/java/tensor/BatchedOps.java:72-81 | result slice `b` is the product of input slices `b` |
| BatchedOps.BmmulND2 | src/main/java/tensor/BatchedOps.java:44-88 | the method's loop computes `BmmulND2Spec` |
| AttentionOps.SplitHeads | src/main/java/nn/layers/attention/AttentionOps.java:24-40 | rank below 2, `H == 0` and a last size not divisible by `H` are errors; a result is well formed with rank 4 |
| AttentionOps.SplitHeadsRank3 | src/main/java/nn/layers/attention/AttentionOps.java:30-39 | on `[B, T, d]` it succeeds exactly when `H > 0` divides `d`, with shape `[B, H, T, d/H]` |
| AttentionOps.SplitHeadsAt | src/main/java/nn/layers/attention/AttentionOps.java:36-39 | `split[b][h][t][i] == X[b][t][h*d_h + i]` |
| AttentionOps.SplitHeadsValue | src/main/java/nn/layers/attention/AttentionOps.java:36-39 | the split is the reshape to `[B, T, H, d_h]` followed by the exchange of the middle two axes |
| AttentionOps.MergeHeads | src/main/java/nn/layers/attention/AttentionOps.java:42-53 | rank below 3 is an error; `[B, h, T, d_h]` becomes `[B, T, h*d_h]` |
| AttentionOps.MergeHeadsRank4 | src/main/java/nn/layers/attention/AttentionOps.java:44-52 | the merge is the exchange of the middle two axes followed by the reshape |
| AttentionOps.MergeHeadsAt | src/main/java/nn/layers/attention/AttentionOps.java:44-52 | `merged[b][t][h*d_h + i] == O[b][h][t][i]` |
| AttentionOps.MergeAfterSplit | src/main/java/nn/layers/attention/AttentionOps.java:24-53 | `mergeHeads(splitHeads(X, H)) == X` whenever `H > 0` divides the last size |
| AttentionOps.SplitAfterMerge | src/main/java/nn/layers/attention/AttentionOps.java:24-53 | `splitHeads(mergeHeads(O), h) == O` for `h > 0` heads |
| AttentionOps.TransposeLast | src/main/java/nn/layers/attention/AttentionOps.java:8 | `K.transpose(-1, -2)` has the permuted shape of `Tensors.Exchange` of the last two axes |
| AttentionOps.DivScalar | src/main/java/tensor/Tensor.java:209-211 | division keeps the shape and the number of elements |
| AttentionOps.QkScores | src/main/java/nn/layers/attention/AttentionOps.java:7-9 | keys of rank below 2 are an error; a result is well formed |
| AttentionOps.QkScoresBatched | src/main/java/nn/layers/attention/AttentionOps.java:7-9 | for batched queries and keys the scores are the batched product with the transposed keys, divided by `scale` |
| AttentionOps.QkScoresAt | src/main/java/nn/layers/attention/AttentionOps.java:7-9 | score `(b, i, j)` is the dot product of query row `i` and key row `j` of batch `b`, divided by `scale` |
| AttentionOps.BroadcastDim | src/main/java/tensor/Tensor.java:174-176 | two sizes broadcast exactly when they are equal or one is 1 |
| AttentionOps.BroadcastShape4 | src/main/java/tensor/Tensor.java:174-176 | each broadcast size equals each operand's size unless that operand's size is 1 |
| AttentionOps.ApplyMask | src/main/java/nn/layers/attention/AttentionOps.java:12-14 | succeeds exactly when the shapes broadcast, with the broadcast shape; otherwise a library shape error |
| AttentionOps.ApplyMaskHeads | src/main/java/nn/layers/attention/AttentionOps.java:12-14 | a `[B, 1, Tq, Tk]` mask is added to every head of `[B, H, Tq, Tk]` scores |
| MaskUtils.CausalMask | src/main/java/nn/mask/MaskUtils.java:27-38 | a fresh `[B, 1, T, T]` mask whose entry `(b, 0, i, j)` is `NEG_INF` when `j > i` and 0 otherwise |
| MaskUtils.CausalMaskQK | src/main/java/nn/mask/MaskUtils.java:41-51 | the same rule over a fresh `[B, 1, Tq, Tk]` mask |
| MaskUtils.PadBatch | src/main/java/nn/mask/MaskUtils.java:68-70 | batch `b` gets `NEG_INF` at every key from `L` on, for every query; every other entry keeps its value |
| MaskUtils.PadMaskFromLength | src/main/java/nn/mask/MaskUtils.java:60-73 | succeeds exactly when every key length is in `[0, Tk]`, else IllegalArgumentException; entry `(b, 0, q, k)` is `NEG_INF` when `k >= keyLens[b]` and 0 otherwise, for every `q` |
| MaskUtils.LengthsToMask | src/main/java/nn/mask/MaskUtils.java:86-94 | a fresh `[B, T]` mask with 1 at `(b, t)` when `t < lens[b]` and 0 otherwise (so ones exactly in the first `min(lens[b], T)` columns) |
| MaskUtils.LengthRowExtremes | src/main/java/nn/mask/MaskUtils.java:90-91 | a length `<= 0` gives an all-zero row and a length `>= T` an all-ones row |
| MaskUtils.DropoutMaskLike | src/main/java/nn/mask/MaskUtils.java:76-83 | same shape as X; all ones when `p <= 0`, all zeros when `p >= 1`, and otherwise each element times `1 - p` is the keep draw |
| MaskUtils.MaskEntries | src/main/java/nn/mask/MaskUtils.java:12-72 | every causal or padding entry is 0 or `NEG_INF`, and `NEG_INF` exactly on the banned positions |
| TransformerMasks.TrimmedLengthUnique | src/main/java/nn/transformer/Transformer.java:138-145 | the scan's length is the unique `n` in `[0, T]` with everything from `n` on PAD and position `n-1` not PAD |
| TransformerMasks.TrimmedLengthExamples | src/main/java/nn/transformer/Transformer.java:139-145 | an all-PAD row has length 0; any non-PAD position lies before the length, so PADs before the last real token count |
| TransformerMasks.LengthsFromIds | src/main/java/nn/transformer/Transformer.java:133-148 | a fresh array whose entry `b` is the trimmed length of row `b` |
| TransformerMasks.LengthsFit | src/main/java/nn/transformer/Transformer.java:133-148 | every length lies in `[0, T]` |
| TransformerMasks.AddMasks | src/main/java/nn/transformer/Transformer.java:76 | the entrywise sum of two masks of one shape |
| TransformerMasks.DecSelfEntry | src/main/java/nn/transformer/Transformer.java:74-76 | a decoder self-mask entry is 0 exactly when `j <= i` and `j < tgtLen`, and negative otherwise |
| TransformerMasks.ForwardMasks | src/main/java/nn/transformer/Transformer.java:61-77 | the padding masks never fail on the scanned lengths; `encMask` is `[B, 1, S, S]`, `decSelfMask` `[B, 1, T, T]` and `crossMask` `[B, 1, T, S]`, with the entries of the causal and padding rules |
| Parameters.Accumulated | src/main/java/nn/core/Parameter.java:41-43 | an absent gradient becomes the argument; a present one becomes old + argument when the shapes agree, else a library shape error |
| Parameters.AccumulateOrder | src/main/java/nn/core/Parameter.java:41-43 | accumulating two gradients in either order gives the same buffer |
| Parameters.Parameter.constructor | src/main/java/nn/core/Parameter.java:7-17 | stores name, data and trainable; the gradient starts absent |
| Parameters.Parameter.SetData | src/main/java/nn/core/Parameter.java:23-25 | changes only the data |
| Parameters.Parameter.SetGrad | src/main/java/nn/core/Parameter.java:27-29 | changes only the gradient |
| Parameters.Parameter.SetTrainable | src/main/java/nn/core/Parameter.java:31-33 | changes only the trainable flag |
| Parameters.Parameter.ZeroGrad | src/main/java/nn/core/Parameter.java:37-39 | the gradient becomes absent and nothing else changes, so a second call changes nothing |
| Parameters.Parameter.AddGrad | src/main/java/nn/core/Parameter.java:41-43 | the gradient becomes `Accumulated(old grad, g)`; a shape mismatch fails and leaves it unchanged; data and trainable never change |
| Embeddings.ScatterStep | src/main/java/nn/transformer/embeddings/TokenEmbeddings.java:101-119 | one loop iteration adds `s * dY[i][r]` to column `ids[i]` unless the id is PAD |
| Embeddings.ScatterPadColumn | src/main/java/nn/transformer/embeddings/TokenEmbeddings.java:101-103 | the PAD column stays zero however often PAD occurs |
| Embeddings.ScatterUnseenColumn | src/main/java/nn/transformer/embeddings/TokenEmbeddings.java:94-119 | the column of an id that does not occur stays zero |
| Embeddings.ScatterSingleColumn | src/main/java/nn/transformer/embeddings/TokenEmbeddings.java:101-119 | the column of a non-PAD id occurring once is `s` times that position's gradient row |
| Embeddings.ScatterGrad | src/main/java/nn/transformer/embeddings/TokenEmbeddings.java:94 | the new gradient buffer is a well-formed `[d_model, V]` tensor |
| Embeddings.ScatterGradAt | src/main/java/nn/transformer/embeddings/TokenEmbeddings.java:94-119 | entry `(r, c)` is the sum over positions `i` with `ids[i] == c` (and `c` not PAD) of `s * dY[i][r]` |
| Embeddings.ScatterGradColumns | src/main/java/nn/transformer/embeddings/TokenEmbeddings.java:94-119 | the PAD column and the columns of unseen ids are zero |
| Embeddings.Gather | src/main/java/nn/transformer/embeddings/TokenEmbeddings.java:62-65 | `|ids| * d_model` looked-up values |
| Embeddings.GatherAt | src/main/java/nn/transformer/embeddings/TokenEmbeddings.java:62-65 | the value for position `i` and feature `k` is `E[k][ids[i]] * scale` |
| Embeddings.TokenEmbeddings.constructor | src/main/java/nn/transformer/embeddings/TokenEmbeddings.java:29-36 | a fresh parameter named `token_embeddings.param` holds the initial table with no gradient; no forward caches yet |
| Embeddings.FlatIds | src/main/java/nn/transformer/embeddings/TokenEmbeddings.java:45-58 | the ids flattened row-major: `B * T` ids, the one at `b * T + t` being the truncated element `(b, t)` |
| Embeddings.TokenEmbeddings.Forward | src/main/java/nn/transformer/embeddings/TokenEmbeddings.java:38-76 | rank other than 2 is IllegalArgumentException and changes nothing; otherwise `B`, `T` and the ids flattened row-major (`flatIds[b*T+t]` is the id at `(b, t)`) are cached; an id outside the vocabulary is a library error; the output is the scaled lookup reshaped to `[B, T, d_model]`, times the cached dropout mask when training |
| Embeddings.NewGrad | src/main/java/nn/transformer/embeddings/TokenEmbeddings.java:83-119 | fails with a library shape error, IllegalStateException (E's rows not `d_model`) or NullPointerException (no forward cache); on success it is the scatter-add of `dY` (times the dropout mask) scaled by `gradScale * scale` |
| Embeddings.NonPadInRangeStops | src/main/java/nn/transformer/embeddings/TokenEmbeddings.java:101-117 | one non-PAD id outside the vocabulary makes the whole id list out of range |
| Embeddings.ScatterGradFromBuffer | src/main/java/nn/transformer/embeddings/TokenEmbeddings.java:94-122 | a buffer filled by the loop is the scatter-add tensor |
| Embeddings.ScatterAdd | src/main/java/nn/transformer/embeddings/TokenEmbeddings.java:94-119 | succeeds exactly when every non-PAD id is in `[0, V)`, else a library error; the buffer is `ScatterGrad`: column `c` row `r` holds `s` times the sum of `dY[i, r]` over the positions `i` whose id is `c` and not PAD |
| Embeddings.TokenEmbeddings.CalcGradients | src/main/java/nn/transformer/embeddings/TokenEmbeddings.java:81-130 | with `accumulate` and an existing gradient the new buffer is added to E's gradient, otherwise it replaces it; errors leave E's gradient unchanged; the result is zeros of shape `[B, T]` |
| Embeddings.TokenEmbeddings.ZeroGrad | src/main/java/nn/transformer/embeddings/TokenEmbeddings.java:142-145 | clears E's gradient and nothing else |
| Generator.LeadingLength | src/main/java/nn/transformer/Generator.java:62-72 | the count lies in `[0, S]`; every id before it is not PAD and the id at it is PAD |
| Generator.LeadingLengthUnique | src/main/java/nn/transformer/Generator.java:62-72 | those three facts determine the count |
| Generator.FirstRow | src/main/java/nn/transformer/Generator.java:67 | row 0 of the source ids, read with `getInt(0, i)` |
| Generator.ValidSequenceLength | src/main/java/nn/transformer/Generator.java:62-72 | the loop with `break` returns the number of ids of row 0 before its first PAD |
| Generator.MinGen | src/main/java/nn/transformer/Generator.java:21 | `minGen >= 1`; it is at most `maxLen - 1` when `maxLen >= 2`; it is 1 or at most both `srcLen` and `maxLen - 1` |
| Generator.ArgMax | src/main/java/nn/transformer/Generator.java:48 | an index of a maximum, and the first such index |
| Generator.BanAsWritten | src/main/java/nn/transformer/Generator.java:40-44 | the ban weight of class `i` is computed as the code does: the class label `i` (stored as INT8 by `arange`) is compared with BOS, PAD and EOS, each also narrowed to INT8 by `eq` against the INT8 array (src/main/java/tensor/Tensor.java:80-82, 334-336) |
| Generator.Ban | src/main/java/nn/transformer/Generator.java:40-44 | the intended ban: class `i` has a ban weight of at least 1 exactly when it is BOS, PAD, or EOS while `tLen <= minGen`, and 0 otherwise |
| Generator.Key | src/main/java/nn/transformer/Generator.java:41-44 | the key a value is compared under; narrowing to INT8 leaves values in `[0, 128)` unchanged |
| Generator.StepBan | src/main/java/nn/transformer/Generator.java:40-44 | for either the written or the intended ban: weight at least 1 exactly when the class is banned, 0 exactly when it is not |
| Generator.BanWrapsAround | src/main/java/nn/transformer/Generator.java:41-44 | with 300 classes the written ban bans class 257 for BOS = 1, and class 44 for BOS = 300; the intended ban bans neither |
| Generator.SmallKeys | src/main/java/tensor/Tensor.java:80-82 | a class below 128 and an id in `[-128, 256)` have the same INT8 value exactly when they are equal |
| Generator.BanAgreesBelow128 | src/main/java/nn/transformer/Generator.java:41-44 | for at most 128 classes and ids in `[-128, 256)` the written and intended bans are the same vector |
| Generator.Penalised | src/main/java/nn/transformer/Generator.java:45 | unbanned logits are unchanged; banned ones drop by at least `1e9` |
| Generator.Pick | src/main/java/nn/transformer/Generator.java:40-48 | the next id is an index of the row whose penalised logit is maximal, and the first such index |
| Generator.PickNotBanned | src/main/java/nn/transformer/Generator.java:40-49 | for either ban, on a row of at least four logits within `1e9` of each other, the pick is never banned: not BOS or PAD, nor EOS while EOS is banned (compared as that ban compares) |
| Generator.NewBuffer | src/main/java/nn/transformer/Generator.java:25-28 | a fresh buffer of `maxLen` ids: BOS followed by PAD |
| Generator.DecodeFrom | src/main/java/nn/transformer/Generator.java:30-59 | the loop from a given `tLen`: a failure is a library shape error; a result keeps the tokens already written after BOS and is at most the buffer minus BOS |
| Generator.GreedyDecodeSpec | src/main/java/nn/transformer/Generator.java:11-60 | negative `maxLen` is NegativeArraySizeException, 0 is ArrayIndexOutOfBoundsException, any other failure is a library shape error, and a result has at most `maxLen - 1` tokens |
| Generator.DecodeLoop | src/main/java/nn/transformer/Generator.java:30-59 | the loop from `tLen = 1` on the given buffer, with the written or the intended ban: each step writes the pick at `tLen`, an EOS pick returns `out[1..tLen)`, an empty logits row is a library error, and a full buffer returns `out[1..maxLen)` (the recursion `DecodeFrom`) |
| Generator.GreedyDecode | src/main/java/nn/transformer/Generator.java:11-60 | the decoder as written (INT8 ban): negative `maxLen` is NegativeArraySizeException and 0 is ArrayIndexOutOfBoundsException; otherwise the buffer starts `[BOS, PAD, ...]`, each step writes the pick at `tLen`, an EOS returns `out[1..tLen)` and a full buffer returns `out[1..maxLen)` |
| Generator.DecodeFromClean | src/main/java/nn/transformer/Generator.java:30-59 | for either ban and a model whose rows are tame, decoding succeeds with no banned id (BOS, PAD, compared as the ban compares) and no EOS in the output; the output is either the whole buffer or at least `minGen` tokens |
| Generator.GreedyDecodeClean | src/main/java/nn/transformer/Generator.java:11-60 | for either ban, `maxLen >= 2` and a tame model, the result has between `minGen` and `maxLen - 1` tokens, none of them BOS, PAD or EOS |
| Generator.DecodeFromStops | src/main/java/nn/transformer/Generator.java:48-54 | choosing EOS at `tLen` returns the `tLen - 1` tokens after BOS; any other choice writes it at `tLen` and continues |
| Generator.PickAgrees | src/main/java/nn/transformer/Generator.java:40-48 | on a row of at most 128 logits with ids in `[-128, 256)`, the written and intended bans pick the same id |
| Generator.StepAgrees | src/main/java/nn/transformer/Generator.java:30-54 | one step of the two decoders on such a row either ends both with the same result or writes the same id and continues both |
| Generator.DecodeFromAgree | src/main/java/nn/transformer/Generator.java:30-59 | with at most 128 classes and ids in `[-128, 256)`, the written and intended decoding loops return the same result |
| Generator.GreedyDecodeAgree | src/main/java/nn/transformer/Generator.java:11-60 | under the same bounds `greedyDecode` as written equals the intended decoder, so the wrap-around only shows from 129 classes on |
| ToyData.Reversed | src/main/java/nn/trainer/ToySeq2SeqDataset.java:49-51 | `y[i] == x[L-1-i]` |
| ToyData.ReversedTwice | src/main/java/nn/trainer/ToySeq2SeqDataset.java:49-51 | reversing twice gives the sequence back |
| ToyData.ReversedMultiset | src/main/java/nn/trainer/ToySeq2SeqDataset.java:49-51 | reversing keeps the tokens |
| ToyData.Target | src/main/java/nn/trainer/ToySeq2SeqDataset.java:46-52 | the target has the length and the tokens of `x` (`y == x` for COPY, reversed for REVERSE) |
| ToyData.SampleRanges | src/main/java/nn/trainer/ToySeq2SeqDataset.java:38-40 | `L` lies in `[1, Smax]` and every token in `[3, V-1]` |
| ToyData.SrcRow | src/main/java/nn/trainer/ToySeq2SeqDataset.java:43 | the source row has width `Smax` |
| ToyData.TgtInRow | src/main/java/nn/trainer/ToySeq2SeqDataset.java:55-73 | the decoder-input row has width `T` |
| ToyData.TgtOutRow | src/main/java/nn/trainer/ToySeq2SeqDataset.java:55-73 | the label row has width `T` |
| ToyData.TeacherForcingShift | src/main/java/nn/trainer/ToySeq2SeqDataset.java:55-73 | with `n = min(L, T-1)`: `tgtIn[0] == BOS`, `tgtIn[t+1] == tgtOut[t] == y[t]` for `t < n`, `tgtOut[n] == EOS`, and PAD after |
| ToyData.SrcRowLength | src/main/java/nn/trainer/ToySeq2SeqDataset.java:43 | the pad scan of a source row gives back `L` |
| ToyData.TruncateId | src/main/java/nn/trainer/ToySeq2SeqDataset.java:79-86 | an id stored as a double reads back as itself |
| ToyData.BatchRows | src/main/java/nn/trainer/ToySeq2SeqDataset.java:79-86 | rows `start .. start+batchSize-1` are copied unchanged into a `[batchSize, width]` tensor; a range outside the rows is an index error |
| ToyData.DrawSample | src/main/java/nn/trainer/ToySeq2SeqDataset.java:38-52 | fresh arrays holding the sample and its target |
| ToyData.ToyDataset.constructor | src/main/java/nn/trainer/ToySeq2SeqDataset.java:23-29 | stores the sizes and special ids with three fresh `[B, Smax]` arrays |
| ToyData.WriteSrcRow | src/main/java/nn/trainer/ToySeq2SeqDataset.java:43 | row `b` of the source buffer becomes `x` followed by PAD; every other row keeps its contents |
| ToyData.WriteTgtInRow | src/main/java/nn/trainer/ToySeq2SeqDataset.java:55-69 | row `b` of the decoder-input buffer becomes BOS, then `y` cut to `T - 1` ids, then PAD; every other row keeps its contents |
| ToyData.WriteTgtOutRow | src/main/java/nn/trainer/ToySeq2SeqDataset.java:61-71 | row `b` of the label buffer becomes `y` cut to `min(L, T-1)` ids, then EOS, then PAD; every other row keeps its contents |
| ToyData.ToyDataset.WriteSample | src/main/java/nn/trainer/ToySeq2SeqDataset.java:36-73 | draws sample `b` (length and tokens from the given draws) and writes row `b` of `src`, `tgtIn` and `tgtOut` as the layout functions say; every other row keeps its contents |
| ToyData.ToyDataset.Make | src/main/java/nn/trainer/ToySeq2SeqDataset.java:31-76 | `V < 4` is IllegalArgumentException, as is a positive `B` with `Smax == 0`; otherwise every row `b` holds the source, decoder-input and label layout of sample `b`, drawn from draw `b` |
| ToyData.ToyDataset.BatchSrc | src/main/java/nn/trainer/ToySeq2SeqDataset.java:79-86 | copies source rows `start..start+batchSize-1` unchanged |
| ToyData.ToyDataset.BatchTgtIn | src/main/java/nn/trainer/ToySeq2SeqDataset.java:87-94 | copies decoder-input rows unchanged |
| ToyData.ToyDataset.BatchTgtOut | src/main/java/nn/trainer/ToySeq2SeqDataset.java:95-102 | copies label rows unchanged |
| Training.StepsCeil | src/main/java/nn/trainer/Trainer.java:32 | `steps == ceil(N / batchSize)`: `steps * batchSize >= N`, one step fewer falls short, and there are no steps exactly when `N == 0` |
| Training.BatchPartition | src/main/java/nn/trainer/Trainer.java:45-47 | each batch has size `min(batchSize, N - start)` in `[1, batchSize]` and ends within `N`; all but the last are full and the last ends at `N` |
| Training.BatchOf | src/main/java/nn/trainer/Trainer.java:45-47 | every index below `N` lies in batch `k / batchSize` |
| Training.BatchOfUnique | src/main/java/nn/trainer/Trainer.java:45-47 | and in no other batch |
| Training.CoveredStep | src/main/java/nn/trainer/Trainer.java:45-47 | the batches before step `s` cover exactly the indices below `s * batchSize`, and one more step adds its batch |
| Training.CoveredAll | src/main/java/nn/trainer/Trainer.java:45-47 | all steps together cover exactly `0..N-1` |
| Training.Shuffle | src/main/java/nn/trainer/Trainer.java:35-40 | the Fisher-Yates loop with `j` in `[0, i]` leaves `order` a permutation of `0..N-1` |
| Training.PermutationHoldsAll | src/main/java/nn/trainer/Trainer.java:35-40 | a permutation of `0..N-1` holds every index exactly once and nothing else |
| Training.IotaCount | src/main/java/nn/trainer/Trainer.java:35-37 | `0..N-1` holds each index once |
| Training.HitsBound | src/main/java/nn/trainer/Trainer.java:72-82 | `correct <= total`, and all-PAD labels count nothing |
| Training.CountStep | src/main/java/nn/trainer/Trainer.java:76-80 | one position adds 1 to `total` unless its label is PAD, and 1 to `correct` when it is also predicted |
| Training.CountAppend | src/main/java/nn/trainer/Trainer.java:73-82 | the counts of two runs of positions, one after the other, are the sums of their counts |
| Training.CountRow | src/main/java/nn/trainer/Trainer.java:75-81 | the inner loop over one row extends the counts from the rows before it to the rows up to and including it |
| Training.CountBatch | src/main/java/nn/trainer/Trainer.java:73-82 | the nested loops extend the counts from the rows before `start` to the rows before `start + B` |
| Training.EpochCalls | src/main/java/nn/trainer/Trainer.java:56-70 | four calls per step |
| Training.EpochCallOrder | src/main/java/nn/trainer/Trainer.java:56-70 | step `s` is forward on its batch, then backward, update and zeroGrad, in that order |
| Training.AvgLoss | src/main/java/nn/trainer/Trainer.java:85 | the average times the step count is the loss sum |
| Training.TokenAcc | src/main/java/nn/trainer/Trainer.java:86 | 0 when `total == 0`, else `acc * total == correct`; within `[0, 1]` when `correct <= total` |
| Training.TrainStep | src/main/java/nn/trainer/Trainer.java:46-82 | one step appends its four calls, adds its loss and extends the counts by its batch |
| Training.TrainEpoch | src/main/java/nn/trainer/Trainer.java:29-89 | `batchSize == 0` is ArithmeticException; otherwise the calls are the step sequence, the loss is the average over the steps, and the accuracy counts every row of `tgtOut` exactly once |

## Left out

- Floating-point numerics are not modelled: `softmaxLast`, `exp`, GELU and the other activations, the layers, losses and optimisers. Element values are exact reals.
- The mixture-of-experts subsystem is not modelled. Its router, feed-forward and load-balancing loss are unfinished in the source.
- Composite wiring is not modelled: encoder and decoder blocks, and the calls in `Transformer.forward` and `backward` other than the masks.
- `MaskUtils.causalMask(int T)` is not modelled. It writes through a three-element index into a rank-4 array, so its result depends on ND4J.
- Randomness becomes parameters: the Bernoulli draws of the dropout mask, the dataset's length and token draws, and the trainer's shuffle draws.
- The model, the loss function and the optimiser in `Generator` and `Trainer` are oracles. A next-token logits function, a prediction function and a per-step loss stand in for them. The PAD mask inside the loss is part of that oracle.
- ND4J's general `permute` moves data, but that data movement is not modelled. `Tensors.Transpose` returns the permutation it would pass on. Only the adjacent-axis exchange used by `splitHeads` and `mergeHeads` is modelled on data.
- The data of `concat` and `slice` is not modelled. Only their argument checks and the index vectors they pass on are.
- `TensorData.Add`: broadcasting is modelled only for `applyMask`'s rank-4 case. Elsewhere a shape mismatch is modelled as a library error.
- 32-bit overflow of sizes and counts is not modelled; dimensions are unbounded naturals. The exception is `bmmulND2`'s `Math.toIntExact` of the batch count.
- Several `int` arguments are modelled as `nat`, so their negative values, which the source accepts or rejects through ND4J, are outside the model: `AttentionOps.SplitHeads`'s `H`, `ToyData.BatchRows`'s `batchSize`, `ToyData.ToyDataset.Make`'s `B` and `Smax`, and the `B`, `T`, `Tq` and `Tk` of `MaskUtils.CausalMask`, `MaskUtils.CausalMaskQK`, `MaskUtils.PadMaskFromLength` and `MaskUtils.LengthsToMask`.
- `Training.TrainEpoch`: `batchSize` is a `nat`. In the source a negative batch size does not throw: with `N = 5` and `batchSize = -2` the step count is `-1`, no step runs and the loss and accuracy are `0.0`.
- `Parameters.Parameter.SetGrad`, `Parameters.Parameter.AddGrad`: `setGrad(null)` (clearing the gradient) and `addGrad(null)` onto a present gradient (a NullPointerException) are not modelled; gradients passed in are always tensors.
- `TensorData.Truncate`: the `(int)` cast of a double truncates toward zero but does not saturate at the bounds of `int`.
- `AttentionOps.DivScalar`, `AttentionOps.QkScores`: require a non-zero divisor; division by zero gives infinities in floating point, which are not modelled.
- `Tensors.Arange`: requires `start <= end`. An empty or reversed range is ND4J's concern.
- `TransformerMasks.ForwardMasks`: requires source and target batches of equal size, which the transformer assumes without checking.
- `Generator.GreedyDecode`, `Generator.ValidSequenceLength`: require a rank-2 source with at least one row, the only shape the transformer accepts. A model that returns an empty logits row is modelled as a library shape error.
- `ToyData.ToyDataset.Make`: requires the draws to lie in the ranges `nextInt` returns.
- `Embeddings.TokenEmbeddings.ZeroGrad` clears only E's gradient and leaves the forward caches, as the code does. A description of the class says the caches are invalidated; the model follows the code.
- `Training.TrainEpoch` computes the shuffled order and never uses it, as the code does. The batches are taken in index order.

## Findings

| source | as written | input that shows it | evidently intended | confidence | as-written member | corrected member |
|---|---|---|---|---|---|---|
| src/main/java/nn/transformer/Generator.java:41-44 | the class labels are `arange(0, V)`, stored as INT8, and `eq` compares them with BOS, PAD and EOS against that INT8 array, so class `i` is banned when `i` and the id agree after narrowing to a signed byte | `V = 300`, `bosId = 1`: class 257 narrows to 1 and is banned as if it were BOS; `bosId = 300` narrows to 44 and bans class 44 | class `i` is banned exactly when `i` is BOS, PAD, or EOS while `tLen <= minGen` | medium, not executed | Generator.BanAsWritten, Generator.BanWrapsAround, Generator.GreedyDecode | Generator.Ban, Generator.PickNotBanned, Generator.GreedyDecodeAgree |
