/** `nn.mask.MaskUtils`: the additive attention masks (0 where attention is
    allowed, `NegInf` where it is not), the 0/1 length mask used by the
    loss, and the degenerate cases of the inverted-dropout mask.

    A mask is a freshly allocated four-dimensional buffer `[B, 1, Tq, Tk]`
    (an `array4`), filled with zeros and then written in place. */
module MaskUtils {
  import opened Wrappers
  import opened TensorData

  /** `NEG_INF`: the large negative value written where attention is banned. */
  const NegInf: real := -10000.0

  /** What a causal mask holds at query `i`, key `j`: a query may not look at
      a later key. */
  function CausalEntry(i: int, j: int): real
  {
    if j > i then NegInf else 0.0
  }

  /** What a padding mask holds at key `k` for a sequence of `len` real keys. */
  function PadEntry(len: int, k: int): real
  {
    if k >= len then NegInf else 0.0
  }

  /** `(b, i, j)` comes before `(b0, i0, j0)` in the order the loops visit. */
  predicate Before(b: int, i: int, j: int, b0: int, i0: int, j0: int)
  {
    b < b0 || (b == b0 && (i < i0 || (i == i0 && j < j0)))
  }

  /** The causal entries before `(b0, i0, j0)` are written and the rest of
      the buffer still holds its initial zeros. */
  ghost predicate CausalUpTo(m: array4<real>, b0: int, i0: int, j0: int)
    reads m
  {
    forall b, h, i, j :: 0 <= b < m.Length0 && 0 <= h < m.Length1 && 0 <= i < m.Length2 && 0 <= j < m.Length3 ==>
      m[b, h, i, j] == (if Before(b, i, j, b0, i0, j0) then CausalEntry(i, j) else 0.0)
  }

  /** `causalMask(B, T)`: a `[B, 1, T, T]` mask banning every later key; the
      inner loop starts right after the diagonal. */
  method CausalMask(B: nat, T: nat) returns (m: array4<real>)
    ensures fresh(m)
    ensures m.Length0 == B && m.Length1 == 1 && m.Length2 == T && m.Length3 == T
    ensures forall b, h, i, j :: 0 <= b < B && 0 <= h < 1 && 0 <= i < T && 0 <= j < T ==>
              m[b, h, i, j] == CausalEntry(i, j)
  {
    m := new real[B, 1, T, T]((_, _, _, _) => 0.0);
    for b := 0 to B
      invariant CausalUpTo(m, b, 0, 0)
    {
      for i := 0 to T
        invariant CausalUpTo(m, b, i, 0)
      {
        for j := i + 1 to T
          invariant CausalUpTo(m, b, i, j)
        {
          m[b, 0, i, j] := NegInf;
        }
      }
    }
  }

  /** `causalMask(B, Tq, Tk)`: the same rule over a `[B, 1, Tq, Tk]` mask, by
      testing every cell. */
  method CausalMaskQK(B: nat, Tq: nat, Tk: nat) returns (m: array4<real>)
    ensures fresh(m)
    ensures m.Length0 == B && m.Length1 == 1 && m.Length2 == Tq && m.Length3 == Tk
    ensures forall b, h, i, j :: 0 <= b < B && 0 <= h < 1 && 0 <= i < Tq && 0 <= j < Tk ==>
              m[b, h, i, j] == CausalEntry(i, j)
  {
    m := new real[B, 1, Tq, Tk]((_, _, _, _) => 0.0);
    for b := 0 to B
      invariant CausalUpTo(m, b, 0, 0)
    {
      for i := 0 to Tq
        invariant CausalUpTo(m, b, i, 0)
      {
        for j := 0 to Tk
          invariant CausalUpTo(m, b, i, j)
        {
          if j > i {
            m[b, 0, i, j] := NegInf;
          }
        }
      }
    }
  }

  /** Every key length in `keyLens[..n]` lies in `[0, Tk]`. */
  predicate LengthsInRange(keyLens: seq<int>, n: int, Tk: int)
    requires 0 <= n <= |keyLens|
  {
    forall b :: 0 <= b < n ==> 0 <= keyLens[b] <= Tk
  }

  /** Batches before `b0` hold their padding mask; the rest are still zero. */
  ghost predicate PadUpTo(m: array4<real>, keyLens: seq<int>, b0: int)
    requires |keyLens| == m.Length0
    reads m
  {
    forall b, h, q, k :: 0 <= b < m.Length0 && 0 <= h < m.Length1 && 0 <= q < m.Length2 && 0 <= k < m.Length3 ==>
      m[b, h, q, k] == (if b < b0 then PadEntry(keyLens[b], k) else 0.0)
  }

  /** `padMaskFromLength(keyLens, Tq, Tk)`: a `[B, 1, Tq, Tk]` mask banning
      the keys at or after each sequence's length; a length outside
      `[0, Tk]` is an `IllegalArgumentException`. */
  method PadMaskFromLength(keyLens: array<int>, Tq: nat, Tk: nat) returns (res: Result<array4<real>>)
    ensures res.Ok? <==> LengthsInRange(keyLens[..], keyLens.Length, Tk)
    ensures res.Err? ==> res.error == IllegalArgument
    ensures res.Ok? ==> fresh(res.value)
    ensures res.Ok? ==> var m := res.value;
              m.Length0 == keyLens.Length && m.Length1 == 1 && m.Length2 == Tq && m.Length3 == Tk &&
              forall b, h, q, k :: 0 <= b < keyLens.Length && 0 <= h < 1 && 0 <= q < Tq && 0 <= k < Tk ==>
                m[b, h, q, k] == PadEntry(keyLens[b], k)
  {
    var B := keyLens.Length;
    var m := new real[B, 1, Tq, Tk]((_, _, _, _) => 0.0);
    for b := 0 to B
      invariant LengthsInRange(keyLens[..], b, Tk)
      invariant PadUpTo(m, keyLens[..], b)
    {
      var L := keyLens[b];
      if L < 0 || L > Tk {
        return Err(IllegalArgument);
      }
      if L < Tk {
        PadBatch(m, b, L);
      }
    }
    return Ok(m);
  }

  /** The write of batch `b`: every key from `L` on becomes `NegInf`,
      nothing else changes. */
  method PadBatch(m: array4<real>, b: nat, L: nat)
    requires b < m.Length0 && m.Length1 == 1
    modifies m
    ensures forall b', h, q, k :: 0 <= b' < m.Length0 && 0 <= h < 1 && 0 <= q < m.Length2 && 0 <= k < m.Length3 ==>
              m[b', h, q, k] == (if b' == b && L <= k then NegInf else old(m[b', h, q, k]))
  {
    forall q, k | 0 <= q < m.Length2 && L <= k < m.Length3 {
      m[b, 0, q, k] := NegInf;
    }
  }

  /** What a length mask holds at column `t` for a sequence of `len` tokens. */
  function LengthEntry(len: int, t: int): real
  {
    if t < len then 1.0 else 0.0
  }

  /** `lengthsToMask(lens, T)`: a `[B, T]` 0/1 mask whose row `b` has ones
      exactly in its first `min(lens[b], T)` columns. */
  method LengthsToMask(lens: array<int>, T: nat) returns (m: array2<real>)
    ensures fresh(m) && m.Length0 == lens.Length && m.Length1 == T
    ensures forall b, t :: 0 <= b < lens.Length && 0 <= t < T ==>
              m[b, t] == LengthEntry(lens[b], t)
  {
    var B := lens.Length;
    m := new real[B, T]((_, _) => 0.0);
    for b := 0 to B
      invariant forall b', t :: 0 <= b' < B && 0 <= t < T ==>
                  m[b', t] == if b' < b && t < lens[b'] then 1.0 else 0.0
    {
      var n := if lens[b] < T then lens[b] else T;
      if n > 0 {
        forall t | 0 <= t < n {
          m[b, t] := 1.0;
        }
      }
    }
  }

  /** A non-positive length gives an all-zero row; a length of at least `T`
      gives an all-ones row. */
  lemma LengthRowExtremes(len: int, T: nat)
    ensures len <= 0 ==> forall t :: 0 <= t < T ==> LengthEntry(len, t) == 0.0
    ensures len >= T ==> forall t :: 0 <= t < T ==> LengthEntry(len, t) == 1.0
  {
  }

  /** `dropoutMaskLike(X, p)`: ones when `p <= 0`, zeros when `p >= 1`, and
      otherwise the inverted-dropout mask `draw / (1 - p)` for the given
      Bernoulli draws (one per element, `true` = keep). */
  function DropoutMaskLike(X: Tensor, p: real, draws: seq<bool>): (D: Tensor)
    requires |draws| == |X.data|
    ensures D.shape == X.shape && (WellFormed(X) ==> WellFormed(D))
    ensures p <= 0.0 ==> D == Fill(1.0, X.shape)
    ensures p >= 1.0 ==> D == Fill(0.0, X.shape)
    ensures 0.0 < p < 1.0 ==> (|D.data| == |X.data| &&
              forall i :: 0 <= i < |X.data| ==> D.data[i] * (1.0 - p) == if draws[i] then 1.0 else 0.0)
  {
    if p <= 0.0 then Fill(1.0, X.shape)
    else if p >= 1.0 then Fill(0.0, X.shape)
    else
      var keep := 1.0 - p;
      Tensor(X.shape, seq(|X.data|, i requires 0 <= i < |X.data| => (if draws[i] then 1.0 else 0.0) / keep))
  }

  /** Every causal or padding mask entry is `0` or `NegInf`, and `NegInf`
      exactly on the banned positions. */
  lemma MaskEntries(i: int, j: int, len: int)
    ensures CausalEntry(i, j) in {0.0, NegInf} && PadEntry(len, j) in {0.0, NegInf}
    ensures CausalEntry(i, j) == NegInf <==> j > i
    ensures PadEntry(len, j) == NegInf <==> j >= len
  {
  }
}
