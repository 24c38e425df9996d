/** `nn.trainer.ToySeq2SeqDataset`: `B` random samples of a copy or reverse
    task. Sample `b` has `L = 1 + nextInt(Smax)` tokens `3 + nextInt(V - 3)`;
    its rows are the source `[x..., PAD...]`, the decoder input
    `[BOS, y..., PAD...]` and the labels `[y..., EOS, PAD...]`, all of width
    `T = Smax`. The random draws are inputs. */
module ToyData {
  import opened Wrappers
  import opened TensorData
  import opened TransformerMasks

  datatype Task = Copy | Reverse

  /** `n` copies of `v`. */
  function Pads(n: nat, v: int): (p: seq<int>)
  {
    seq(n, _ => v)
  }

  /** `x` read back to front. */
  function Reversed(x: seq<int>): (r: seq<int>)
    ensures |r| == |x| && forall i :: 0 <= i < |x| ==> r[i] == x[|x| - 1 - i]
  {
    if |x| == 0 then [] else Reversed(x[1..]) + [x[0]]
  }

  /** Reversing twice gives the sequence back. */
  lemma ReversedTwice(x: seq<int>)
    ensures Reversed(Reversed(x)) == x
  {
  }

  /** The target core `y` of a sample: `x` itself, or `x` reversed. */
  function Target(task: Task, x: seq<int>): (y: seq<int>)
    ensures |y| == |x| && multiset(y) == multiset(x)
  {
    match task
    case Copy => x
    case Reverse => ReversedMultiset(x); Reversed(x)
  }

  lemma {:induction false} ReversedMultiset(x: seq<int>)
    ensures multiset(Reversed(x)) == multiset(x)
  {
    if |x| > 0 {
      ReversedMultiset(x[1..]);
      assert x == [x[0]] + x[1..];
    }
  }

  /** The tokens of a sample whose length draw is `lenDraw`: `3 + d` for each
      token draw `d`. */
  function Sample(lenDraw: int, tokDraws: seq<int>): seq<int>
    requires 0 <= lenDraw < |tokDraws|
  {
    seq(lenDraw + 1, i requires 0 <= i <= lenDraw => 3 + tokDraws[i])
  }

  /** Draws that `nextInt` could have returned: a length draw in
      `[0, Smax)` and one token draw per token. */
  predicate DrawsFit(lenDraw: int, tokDraws: seq<int>, Smax: nat)
  {
    Smax > 0 ==> 0 <= lenDraw < Smax && |tokDraws| == lenDraw + 1
  }

  /** Each sample has `1..Smax` tokens, each in `[3, V - 1]`. */
  lemma SampleRanges(lenDraw: int, tokDraws: seq<int>, Smax: nat, V: int)
    requires Smax > 0 && DrawsFit(lenDraw, tokDraws, Smax)
    requires forall i :: 0 <= i < |tokDraws| ==> 0 <= tokDraws[i] < V - 3
    ensures var x := Sample(lenDraw, tokDraws);
            1 <= |x| <= Smax && forall i :: 0 <= i < |x| ==> 3 <= x[i] <= V - 1
  {
  }

  /** The source row: the tokens, then padding up to `Smax`. */
  function SrcRow(x: seq<int>, Smax: nat, PAD: int): (row: seq<int>)
    requires |x| <= Smax
    ensures |row| == Smax
  {
    x + Pads(Smax - |x|, PAD)
  }

  /** The decoder input: BOS, then the target (its last token dropped when
      it fills the whole row), then padding. */
  function TgtInRow(y: seq<int>, T: nat, BOS: int, PAD: int): (row: seq<int>)
    requires 1 <= |y| <= T
    ensures |row| == T
  {
    if |y| < T then [BOS] + y + Pads(T - 1 - |y|, PAD) else [BOS] + y[..T - 1]
  }

  /** The labels: the target (its last token dropped when it fills the
      whole row), then EOS, then padding. */
  function TgtOutRow(y: seq<int>, T: nat, EOS: int, PAD: int): (row: seq<int>)
    requires 1 <= |y| <= T
    ensures |row| == T
  {
    if |y| < T then y + [EOS] + Pads(T - 1 - |y|, PAD) else y[..T - 1] + [EOS]
  }

  /** Teacher forcing: with `n = min(L, T - 1)` target tokens kept, the
      input is the labels shifted right by one behind BOS, the labels end
      with EOS at `n`, and both rows are padding after it. */
  lemma TeacherForcingShift(y: seq<int>, T: nat, BOS: int, EOS: int, PAD: int)
    requires 1 <= |y| <= T
    ensures var n := if |y| < T then |y| else T - 1;
            var tin, tout := TgtInRow(y, T, BOS, PAD), TgtOutRow(y, T, EOS, PAD);
            tin[0] == BOS && tout[n] == EOS &&
            (forall t :: 0 <= t < n ==> tin[t + 1] == tout[t] == y[t]) &&
            (forall t :: n < t < T ==> tin[t] == PAD && tout[t] == PAD)
  {
  }

  /** A source row whose tokens are never PAD has exactly `|x|` valid
      tokens for the encoder's length scan. */
  lemma SrcRowLength(x: seq<int>, Smax: nat, PAD: int)
    requires |x| <= Smax && forall i :: 0 <= i < |x| ==> x[i] != PAD
    ensures TrimmedLength(SrcRow(x, Smax, PAD), PAD) == |x|
  {
    TrimmedLengthUnique(SrcRow(x, Smax, PAD), PAD, |x|);
  }

  /** An id stored as a float element reads back as the same id. */
  lemma TruncateId(v: int)
    ensures Truncate(v as real) == v
  {
  }

  /** `batchSrc` / `batchTgtIn` / `batchTgtOut(start, batchSize)`: a
      `[batchSize, n]` tensor holding rows `start .. start + batchSize - 1`.
      Reading a row outside the dataset throws. */
  method BatchRows(rows: array2<int>, start: int, batchSize: nat) returns (res: Result<Tensor>)
    ensures res.Err? <==> batchSize > 0 && rows.Length1 > 0 && (start < 0 || start + batchSize > rows.Length0)
    ensures res.Err? ==> res.error == IndexOutOfBounds
    ensures res.Ok? ==> WellFormed(res.value) && res.value.shape == [batchSize, rows.Length1]
    ensures res.Ok? ==> forall i, t :: 0 <= i < batchSize && 0 <= t < rows.Length1 ==>
              IdAt(res.value, i, t) == rows[start + i, t]
  {
    var n := rows.Length1;
    var a := new real[batchSize, n]((_, _) => 0.0);
    for i := 0 to batchSize
      invariant forall i', t :: 0 <= i' < i && 0 <= t < n ==> 0 <= start + i' < rows.Length0 && a[i', t] == rows[start + i', t] as real
      invariant i > 0 && n > 0 ==> 0 <= start && start + i <= rows.Length0
    {
      var b := start + i;
      for t := 0 to n
        invariant forall i', t' :: 0 <= i' < i && 0 <= t' < n ==> 0 <= start + i' < rows.Length0 && a[i', t'] == rows[start + i', t'] as real
        invariant t > 0 ==> 0 <= b < rows.Length0
        invariant forall t' :: 0 <= t' < t ==> a[i, t'] == rows[b, t'] as real
      {
        if b < 0 || b >= rows.Length0 {
          return Err(IndexOutOfBounds);
        }
        a[i, t] := rows[b, t] as real;
      }
    }
    var tensor := FromArray2(a);
    forall i, t | 0 <= i < batchSize && 0 <= t < n
      ensures IdAt(tensor, i, t) == rows[start + i, t]
    {
      FromArray2At(a, i, t);
      TruncateId(rows[start + i, t]);
    }
    return Ok(tensor);
  }

  /** One sample of `make`: `L = 1 + lenDraw` tokens `x[i] = 3 + draw`, and
      the target core `y` (the same array for COPY, a reversed copy for
      REVERSE). */
  method DrawSample(task: Task, lenDraw: nat, tokDraws: seq<int>) returns (x: array<int>, y: array<int>)
    requires lenDraw < |tokDraws|
    ensures fresh(x) && fresh(y)
    ensures x[..] == Sample(lenDraw, tokDraws) && y[..] == Target(task, x[..])
  {
    var L := 1 + lenDraw;
    x := new int[L];
    for i := 0 to L
      invariant forall k :: 0 <= k < i ==> x[k] == 3 + tokDraws[k]
    {
      x[i] := 3 + tokDraws[i];
    }
    if task == Copy {
      y := x;
    } else {
      y := new int[L];
      for i := 0 to L
        modifies y
        invariant forall k :: 0 <= k < i ==> y[k] == x[L - 1 - k]
      {
        y[i] := x[L - 1 - i];
      }
    }
  }

  /** Row `b` of `a` holds `row`. */
  ghost predicate RowIs(a: array2<int>, b: nat, row: seq<int>)
    reads a
  {
    b < a.Length0 && RowOf(a, b) == row
  }

  /** `src[b][t] = t < L ? x[t] : PAD` for every column. */
  method WriteSrcRow(src: array2<int>, b: nat, x: array<int>, PAD: int)
    requires b < src.Length0 && x.Length <= src.Length1
    modifies src
    ensures RowIs(src, b, SrcRow(x[..], src.Length1, PAD))
    ensures forall b' :: 0 <= b' < src.Length0 && b' != b ==> RowOf(src, b') == old(RowOf(src, b'))
  {
    var L, Smax := x.Length, src.Length1;
    ghost var row := SrcRow(x[..], Smax, PAD);
    for t := 0 to Smax
      invariant forall t' :: 0 <= t' < t ==> src[b, t'] == row[t']
      invariant forall b', t' :: 0 <= b' < src.Length0 && b' != b && 0 <= t' < Smax ==> src[b', t'] == old(src[b', t'])
    {
      src[b, t] := if t < L then x[t] else PAD;
    }
  }

  /** The decoder-input row: BOS, then `y`, then PAD when `L < T`; BOS and
      `y` without its last token when `L == T`. */
  method WriteTgtInRow(tgtIn: array2<int>, b: nat, y: array<int>, BOS: int, PAD: int)
    requires b < tgtIn.Length0 && 1 <= y.Length <= tgtIn.Length1
    modifies tgtIn
    ensures RowIs(tgtIn, b, TgtInRow(y[..], tgtIn.Length1, BOS, PAD))
    ensures forall b' :: 0 <= b' < tgtIn.Length0 && b' != b ==> RowOf(tgtIn, b') == old(RowOf(tgtIn, b'))
  {
    var L, T := y.Length, tgtIn.Length1;
    ghost var row := TgtInRow(y[..], T, BOS, PAD);
    tgtIn[b, 0] := BOS;
    var last := if L < T then L + 1 else T;
    for t := 1 to last
      invariant forall t' :: 0 <= t' < t ==> tgtIn[b, t'] == row[t']
      invariant forall b', t' :: 0 <= b' < tgtIn.Length0 && b' != b && 0 <= t' < T ==> tgtIn[b', t'] == old(tgtIn[b', t'])
    {
      tgtIn[b, t] := y[t - 1];
    }
    for t := last to T
      invariant forall t' :: 0 <= t' < t ==> tgtIn[b, t'] == row[t']
      invariant forall b', t' :: 0 <= b' < tgtIn.Length0 && b' != b && 0 <= t' < T ==> tgtIn[b', t'] == old(tgtIn[b', t'])
    {
      tgtIn[b, t] := PAD;
    }
  }

  /** The label row: `y`, EOS, then PAD when `L < T`; `y` without its last
      token and then EOS when `L == T`. */
  method WriteTgtOutRow(tgtOut: array2<int>, b: nat, y: array<int>, EOS: int, PAD: int)
    requires b < tgtOut.Length0 && 1 <= y.Length <= tgtOut.Length1
    modifies tgtOut
    ensures RowIs(tgtOut, b, TgtOutRow(y[..], tgtOut.Length1, EOS, PAD))
    ensures forall b' :: 0 <= b' < tgtOut.Length0 && b' != b ==> RowOf(tgtOut, b') == old(RowOf(tgtOut, b'))
  {
    var L, T := y.Length, tgtOut.Length1;
    ghost var row := TgtOutRow(y[..], T, EOS, PAD);
    var n := if L < T then L else T - 1;
    for t := 0 to n
      invariant forall t' :: 0 <= t' < t ==> tgtOut[b, t'] == row[t']
      invariant forall b', t' :: 0 <= b' < tgtOut.Length0 && b' != b && 0 <= t' < T ==> tgtOut[b', t'] == old(tgtOut[b', t'])
    {
      tgtOut[b, t] := y[t];
    }
    tgtOut[b, n] := EOS;
    for t := n + 1 to T
      invariant forall t' :: 0 <= t' < t ==> tgtOut[b, t'] == row[t']
      invariant forall b', t' :: 0 <= b' < tgtOut.Length0 && b' != b && 0 <= t' < T ==> tgtOut[b', t'] == old(tgtOut[b', t'])
    {
      tgtOut[b, t] := PAD;
    }
  }

  class ToyDataset {
    const B: nat
    const Smax: nat
    const T: nat
    const V: int
    const PAD: int
    const BOS: int
    const EOS: int
    const src: array2<int>
    const tgtIn: array2<int>
    const tgtOut: array2<int>

    /** Three distinct `[B, Smax]` id buffers, with `T == Smax`. */
    predicate Valid()
    {
      T == Smax &&
      src.Length0 == B && src.Length1 == Smax &&
      tgtIn.Length0 == B && tgtIn.Length1 == T &&
      tgtOut.Length0 == B && tgtOut.Length1 == T &&
      src != tgtIn && src != tgtOut && tgtIn != tgtOut
    }

    /** The private constructor: zero-filled buffers. */
    constructor (B: nat, Smax: nat, V: int, PAD: int, BOS: int, EOS: int)
      ensures Valid()
      ensures this.B == B && this.Smax == Smax && this.V == V && this.PAD == PAD && this.BOS == BOS && this.EOS == EOS
      ensures fresh(src) && fresh(tgtIn) && fresh(tgtOut)
    {
      this.B := B;
      this.Smax := Smax;
      this.T := Smax;
      this.V := V;
      this.PAD := PAD;
      this.BOS := BOS;
      this.EOS := EOS;
      src := new int[B, Smax]((_, _) => 0);
      tgtIn := new int[B, Smax]((_, _) => 0);
      tgtOut := new int[B, Smax]((_, _) => 0);
    }

    /** Row `b` of the three buffers holds the layout of the sample drawn
        from `lenDraw` and `tokDraws`. */
    ghost predicate HoldsSample(task: Task, b: nat, lenDraw: int, tokDraws: seq<int>)
      reads src, tgtIn, tgtOut
    {
      0 <= lenDraw < Smax && |tokDraws| == lenDraw + 1 && T == Smax &&
      RowIs(src, b, SrcRow(Sample(lenDraw, tokDraws), Smax, PAD)) &&
      RowIs(tgtIn, b, TgtInRow(Target(task, Sample(lenDraw, tokDraws)), T, BOS, PAD)) &&
      RowIs(tgtOut, b, TgtOutRow(Target(task, Sample(lenDraw, tokDraws)), T, EOS, PAD))
    }

    /** The body of `make`'s loop for sample `b`: draws its tokens `x` and
        target core `y`, then writes row `b` of the three buffers and no
        other row. */
    method WriteSample(task: Task, b: nat, lenDraw: int, tokDraws: seq<int>)
      requires Valid() && b < B && 0 <= lenDraw < Smax && |tokDraws| == lenDraw + 1
      modifies src, tgtIn, tgtOut
      ensures HoldsSample(task, b, lenDraw, tokDraws)
      ensures forall b' :: 0 <= b' < B && b' != b ==> RowOf(src, b') == old(RowOf(src, b'))
      ensures forall b' :: 0 <= b' < B && b' != b ==> RowOf(tgtIn, b') == old(RowOf(tgtIn, b'))
      ensures forall b' :: 0 <= b' < B && b' != b ==> RowOf(tgtOut, b') == old(RowOf(tgtOut, b'))
    {
      var x, y := DrawSample(task, lenDraw, tokDraws);
      WriteSrcRow(src, b, x, PAD);
      WriteTgtInRow(tgtIn, b, y, BOS, PAD);
      WriteTgtOutRow(tgtOut, b, y, EOS, PAD);
    }

    /** `make(task, B, Smax, V, PAD, BOS, EOS)` with the length draws and
        token draws given: a vocabulary below 4 is rejected, and so is an
        empty row width when there is a sample to draw. */
    static method Make(task: Task, B: nat, Smax: nat, V: int, PAD: int, BOS: int, EOS: int,
                       lenDraws: seq<int>, tokDraws: seq<seq<int>>) returns (res: Result<ToyDataset>)
      requires |lenDraws| == B && |tokDraws| == B
      requires forall b :: 0 <= b < B ==> (Smax > 0 ==> 0 <= lenDraws[b] < Smax && |tokDraws[b]| == lenDraws[b] + 1)
      ensures res.Err? <==> V < 4 || (B > 0 && Smax == 0)
      ensures res.Err? ==> res.error == IllegalArgument
      ensures res.Ok? ==> var ds := res.value;
                fresh(ds) && fresh(ds.src) && fresh(ds.tgtIn) && fresh(ds.tgtOut) && ds.Valid() &&
                ds.B == B && ds.Smax == Smax && ds.V == V && ds.PAD == PAD && ds.BOS == BOS && ds.EOS == EOS
      ensures res.Ok? ==> forall b :: 0 <= b < B ==> res.value.HoldsSample(task, b, lenDraws[b], tokDraws[b])
    {
      if V < 4 {
        return Err(IllegalArgument);
      }
      var ds := new ToyDataset(B, Smax, V, PAD, BOS, EOS);
      for b := 0 to B
        invariant fresh(ds.src) && fresh(ds.tgtIn) && fresh(ds.tgtOut)
        invariant b > 0 ==> Smax > 0
        invariant forall b' :: 0 <= b' < b ==> ds.HoldsSample(task, b', lenDraws[b'], tokDraws[b'])
      {
        if Smax == 0 {
          return Err(IllegalArgument);
        }
        ds.WriteSample(task, b, lenDraws[b], tokDraws[b]);
      }
      return Ok(ds);
    }

    /** `batchSrc(start, batchSize)`. */
    method BatchSrc(start: int, batchSize: nat) returns (res: Result<Tensor>)
      requires Valid()
      ensures res.Err? <==> batchSize > 0 && Smax > 0 && (start < 0 || start + batchSize > B)
      ensures res.Ok? ==> WellFormed(res.value) && res.value.shape == [batchSize, Smax]
      ensures res.Ok? ==> forall i, t :: 0 <= i < batchSize && 0 <= t < Smax ==> IdAt(res.value, i, t) == src[start + i, t]
    {
      res := BatchRows(src, start, batchSize);
    }

    /** `batchTgtIn(start, batchSize)`. */
    method BatchTgtIn(start: int, batchSize: nat) returns (res: Result<Tensor>)
      requires Valid()
      ensures res.Err? <==> batchSize > 0 && T > 0 && (start < 0 || start + batchSize > B)
      ensures res.Ok? ==> WellFormed(res.value) && res.value.shape == [batchSize, T]
      ensures res.Ok? ==> forall i, t :: 0 <= i < batchSize && 0 <= t < T ==> IdAt(res.value, i, t) == tgtIn[start + i, t]
    {
      res := BatchRows(tgtIn, start, batchSize);
    }

    /** `batchTgtOut(start, batchSize)`. */
    method BatchTgtOut(start: int, batchSize: nat) returns (res: Result<Tensor>)
      requires Valid()
      ensures res.Err? <==> batchSize > 0 && T > 0 && (start < 0 || start + batchSize > B)
      ensures res.Ok? ==> WellFormed(res.value) && res.value.shape == [batchSize, T]
      ensures res.Ok? ==> forall i, t :: 0 <= i < batchSize && 0 <= t < T ==> IdAt(res.value, i, t) == tgtOut[start + i, t]
    {
      res := BatchRows(tgtOut, start, batchSize);
    }
  }
}
