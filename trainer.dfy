/** `nn.trainer.Trainer.trainEpoch`: one pass over a toy dataset in batches of
    `batchSize` rows. The model, the loss and the optimizer are inputs: for
    every dataset row `k` and position `j`, `predict(k, j)` is the argmax of
    the logits the model produced for it, and `loss(step)` is the loss value
    of step `step`. What is modelled is the bookkeeping: the step count, the
    shuffle, the batch partition, the call order of each step, and the
    token-accuracy counters. */
module Training {
  import opened Wrappers
  import opened TensorData
  import opened ToyData
  import opened IndexArith

  /** `steps = (N + batchSize - 1) / batchSize`: the number of batches. */
  function Steps(N: nat, batchSize: nat): (steps: nat)
    requires batchSize > 0
  {
    (N + batchSize - 1) / batchSize
  }

  /** `Steps` is `ceil(N / batchSize)`: the smallest count of batches that
      holds `N` rows. */
  lemma StepsCeil(N: nat, batchSize: nat)
    requires batchSize > 0
    ensures Steps(N, batchSize) * batchSize >= N
    ensures N > 0 ==> (Steps(N, batchSize) - 1) * batchSize < N
    ensures Steps(N, batchSize) == 0 <==> N == 0
  {
    var q, r := (N + batchSize - 1) / batchSize, (N + batchSize - 1) % batchSize;
    assert N + batchSize - 1 == q * batchSize + r;
    assert (q - 1) * batchSize == q * batchSize - batchSize;
  }

  /** `B = min(batchSize, N - start)` for the batch starting at
      `start = step * batchSize`. */
  function BatchLen(N: nat, batchSize: nat, step: nat): int
  {
    var rest := N - step * batchSize;
    if batchSize < rest then batchSize else rest
  }

  /** Every batch of the epoch is non-empty and inside the dataset; every
      batch but the last is full, and the last one ends at `N`. */
  lemma BatchPartition(N: nat, batchSize: nat, step: nat)
    requires batchSize > 0 && step < Steps(N, batchSize)
    ensures 1 <= BatchLen(N, batchSize, step) <= batchSize
    ensures step * batchSize + BatchLen(N, batchSize, step) <= N
    ensures step + 1 < Steps(N, batchSize) ==> BatchLen(N, batchSize, step) == batchSize
    ensures step + 1 == Steps(N, batchSize) ==> step * batchSize + BatchLen(N, batchSize, step) == N
  {
    StepsCeil(N, batchSize);
    var steps := Steps(N, batchSize);
    MulLe(step, steps - 1, batchSize);
    Distribute(step + 1, 1, batchSize);
    if step + 1 < steps {
      MulLe(step + 1, steps - 1, batchSize);
    }
  }

  /** Row `k` lies in batch `k / batchSize`. */
  lemma BatchOf(N: nat, batchSize: nat, k: nat)
    requires batchSize > 0 && k < N
    ensures k / batchSize < Steps(N, batchSize)
    ensures (k / batchSize) * batchSize <= k < (k / batchSize) * batchSize + BatchLen(N, batchSize, k / batchSize)
  {
    var q := k / batchSize;
    StepsCeil(N, batchSize);
    assert k == q * batchSize + k % batchSize;
    assert q < Steps(N, batchSize) by {
      if q >= Steps(N, batchSize) {
        MulLe(Steps(N, batchSize), q, batchSize);
      }
    }
    assert (q + 1) * batchSize == q * batchSize + batchSize;
  }

  /** No other batch holds row `k`: the batches cover `0 .. N - 1` exactly
      once, in order. */
  lemma BatchOfUnique(N: nat, batchSize: nat, k: nat, s: nat)
    requires batchSize > 0 && s < Steps(N, batchSize)
    requires s * batchSize <= k < s * batchSize + BatchLen(N, batchSize, s)
    ensures s == k / batchSize
  {
    BatchPartition(N, batchSize, s);
    var j := k - s * batchSize;
    Join(s, j, batchSize);
    assert s * batchSize + j == k;
  }

  /** The rows handled by the first `n` steps: `min(n * batchSize, N)`. */
  function Covered(N: nat, batchSize: nat, n: nat): (c: nat)
  {
    if n * batchSize < N then n * batchSize else N
  }

  /** Step `step` handles exactly the rows between `Covered(step)` and
      `Covered(step + 1)`. */
  lemma CoveredStep(N: nat, batchSize: nat, step: nat)
    requires batchSize > 0 && step < Steps(N, batchSize)
    ensures Covered(N, batchSize, step) == step * batchSize
    ensures Covered(N, batchSize, step + 1) == step * batchSize + BatchLen(N, batchSize, step)
  {
    BatchPartition(N, batchSize, step);
    assert (step + 1) * batchSize == step * batchSize + batchSize;
  }

  /** After all the steps every row has been handled. */
  lemma CoveredAll(N: nat, batchSize: nat)
    requires batchSize > 0
    ensures Covered(N, batchSize, Steps(N, batchSize)) == N
  {
    StepsCeil(N, batchSize);
  }

  /** `0, 1, ..., N - 1`. */
  function Iota(N: nat): (s: seq<int>)
  {
    seq(N, i => i)
  }

  /** The initial `order` and the Fisher-Yates swaps with `j = draws[i]`
      drawn from `[0, i]`; the result is a permutation of `0 .. N - 1`. */
  method Shuffle(N: nat, draws: seq<int>) returns (order: array<int>)
    requires |draws| == N && forall i :: 0 < i < N ==> 0 <= draws[i] <= i
    ensures fresh(order) && order.Length == N
    ensures multiset(order[..]) == multiset(Iota(N))
  {
    order := new int[N];
    for i := 0 to N
      invariant forall k :: 0 <= k < i ==> order[k] == k
    {
      order[i] := i;
    }
    assert order[..] == Iota(N);
    var i := N - 1;
    while i > 0
      invariant -1 <= i < N || N == 0
      invariant multiset(order[..]) == multiset(Iota(N))
    {
      var j := draws[i];
      order[i], order[j] := order[j], order[i];
      i := i - 1;
    }
  }

  /** A permutation of `0 .. N - 1` holds every index exactly once. */
  lemma PermutationHoldsAll(order: seq<int>, N: nat)
    requires multiset(order) == multiset(Iota(N))
    ensures |order| == N
    ensures forall k :: 0 <= k < N ==> multiset(order)[k] == 1
    ensures forall i :: 0 <= i < |order| ==> 0 <= order[i] < N
  {
    assert |order| == |multiset(order)| == |multiset(Iota(N))| == N;
    forall k | 0 <= k < N
      ensures multiset(order)[k] == 1
    {
      IotaCount(N, k);
    }
    forall i | 0 <= i < |order|
      ensures 0 <= order[i] < N
    {
      assert order[i] in multiset(Iota(N));
    }
  }

  lemma {:induction false} IotaCount(N: nat, k: nat)
    requires k < N
    ensures multiset(Iota(N))[k] == 1
  {
    if k < N - 1 {
      IotaCount(N - 1, k);
    }
    assert Iota(N) == Iota(N - 1) + [N - 1];
  }

  /** The number of scored positions `(label, prediction)` whose label is
      not PAD. */
  function TargetsIn(scored: seq<(int, int)>, PAD: int): nat
  {
    if |scored| == 0 then 0
    else TargetsIn(scored[..|scored| - 1], PAD) + (if scored[|scored| - 1].0 != PAD then 1 else 0)
  }

  /** The number of scored positions whose label is not PAD and is
      predicted exactly. */
  function HitsIn(scored: seq<(int, int)>, PAD: int): nat
  {
    if |scored| == 0 then 0
    else
      var last := scored[|scored| - 1];
      HitsIn(scored[..|scored| - 1], PAD) + (if last.0 != PAD && last.1 == last.0 then 1 else 0)
  }

  /** Correct predictions never outnumber the counted labels, and positions
      that are all PAD count nothing. */
  lemma {:induction false} HitsBound(scored: seq<(int, int)>, PAD: int)
    ensures HitsIn(scored, PAD) <= TargetsIn(scored, PAD)
    ensures (forall k :: 0 <= k < |scored| ==> scored[k].0 == PAD) ==> TargetsIn(scored, PAD) == 0
  {
    if |scored| > 0 {
      HitsBound(scored[..|scored| - 1], PAD);
    }
  }

  /** Counting one more position adds its own contribution. */
  lemma CountStep(scored: seq<(int, int)>, lab: int, pred: int, PAD: int)
    ensures TargetsIn(scored + [(lab, pred)], PAD) == TargetsIn(scored, PAD) + (if lab != PAD then 1 else 0)
    ensures HitsIn(scored + [(lab, pred)], PAD) == HitsIn(scored, PAD) + (if lab != PAD && pred == lab then 1 else 0)
  {
    assert (scored + [(lab, pred)])[..|scored|] == scored;
  }

  /** Counting two runs of positions one after the other adds their counts. */
  lemma {:induction false} CountAppend(a: seq<(int, int)>, b: seq<(int, int)>, PAD: int)
    ensures TargetsIn(a + b, PAD) == TargetsIn(a, PAD) + TargetsIn(b, PAD)
    ensures HitsIn(a + b, PAD) == HitsIn(a, PAD) + HitsIn(b, PAD)
  {
    if |b| == 0 {
      assert a + b == a;
    } else {
      CountAppend(a, b[..|b| - 1], PAD);
      assert (a + b)[..|a + b| - 1] == a + b[..|b| - 1];
    }
  }

  /** Row `k` of the label buffer, each label paired with its prediction. */
  ghost function RowScored(a: array2<int>, predict: (nat, nat) -> int, k: nat): (row: seq<(int, int)>)
    requires k < a.Length0
    reads a
    ensures |row| == a.Length1 && forall t :: 0 <= t < a.Length1 ==> row[t] == (a[k, t], predict(k, t))
  {
    seq(a.Length1, t requires 0 <= t < a.Length1 reads a => (a[k, t], predict(k, t)))
  }

  /** Rows `0 .. n - 1`, scored, one after the other. */
  ghost function Scored(a: array2<int>, predict: (nat, nat) -> int, n: nat): seq<(int, int)>
    requires n <= a.Length0
    reads a
  {
    if n == 0 then [] else Scored(a, predict, n - 1) + RowScored(a, predict, n - 1)
  }

  /** The inner token-accuracy loop over row `start + i` of the batch
      tensor `y`: count its non-PAD labels and its correct predictions. */
  method CountRow(y: Tensor, labels: array2<int>, start: nat, i: nat, B: nat, predict: (nat, nat) -> int,
                  PAD: int, correct0: nat, total0: nat) returns (correct: nat, total: nat)
    requires WellFormed(y) && y.shape == [B, labels.Length1] && i < B && start + B <= labels.Length0
    requires forall t :: 0 <= t < labels.Length1 ==> IdAt(y, i, t) == labels[start + i, t]
    requires correct0 == HitsIn(Scored(labels, predict, start + i), PAD)
    requires total0 == TargetsIn(Scored(labels, predict, start + i), PAD)
    ensures correct == HitsIn(Scored(labels, predict, start + i + 1), PAD)
    ensures total == TargetsIn(Scored(labels, predict, start + i + 1), PAD)
  {
    var S := labels.Length1;
    var k := start + i;
    ghost var row := RowScored(labels, predict, k);
    var c, n := 0, 0;
    for j := 0 to S
      invariant c == HitsIn(row[..j], PAD) && n == TargetsIn(row[..j], PAD)
    {
      var yv := IdAt(y, i, j);
      assert row[..j + 1] == row[..j] + [(yv, predict(k, j))];
      CountStep(row[..j], yv, predict(k, j), PAD);
      if yv == PAD {
        continue;
      }
      if predict(k, j) == yv {
        c := c + 1;
      }
      n := n + 1;
    }
    assert row[..S] == row;
    CountAppend(Scored(labels, predict, k), row, PAD);
    correct, total := correct0 + c, total0 + n;
  }

  /** The token-accuracy loop of one batch: for the batch tensor `y` of
      rows `start .. start + B - 1`, count every non-PAD label and every
      label the prediction matches, on top of the counts of the rows
      before `start`. */
  method CountBatch(y: Tensor, labels: array2<int>, start: nat, B: nat, predict: (nat, nat) -> int, PAD: int,
                    correct0: nat, total0: nat) returns (correct: nat, total: nat)
    requires WellFormed(y) && y.shape == [B, labels.Length1] && start + B <= labels.Length0
    requires forall i, t :: 0 <= i < B && 0 <= t < labels.Length1 ==> IdAt(y, i, t) == labels[start + i, t]
    requires correct0 == HitsIn(Scored(labels, predict, start), PAD)
    requires total0 == TargetsIn(Scored(labels, predict, start), PAD)
    ensures correct == HitsIn(Scored(labels, predict, start + B), PAD)
    ensures total == TargetsIn(Scored(labels, predict, start + B), PAD)
  {
    correct, total := correct0, total0;
    for i := 0 to B
      invariant correct == HitsIn(Scored(labels, predict, start + i), PAD)
      invariant total == TargetsIn(Scored(labels, predict, start + i), PAD)
    {
      correct, total := CountRow(y, labels, start, i, B, predict, PAD, correct, total);
    }
  }

  /** The calls a training step makes on the model, in order. */
  datatype Call = Forward(start: int, size: int) | Backward | Update | ZeroGrad

  /** The calls of the first `n` steps. */
  function EpochCalls(N: nat, batchSize: nat, n: nat): (calls: seq<Call>)
    ensures |calls| == 4 * n
  {
    if n == 0 then []
    else EpochCalls(N, batchSize, n - 1) +
         [Forward((n - 1) * batchSize, BatchLen(N, batchSize, n - 1)), Backward, Update, ZeroGrad]
  }

  /** Every step runs the forward pass on its batch, then backward, then
      the optimizer update, then zeroGrad. */
  lemma {:induction false} EpochCallOrder(N: nat, batchSize: nat, n: nat, s: nat)
    requires s < n
    ensures var calls := EpochCalls(N, batchSize, n);
            calls[4 * s] == Forward(s * batchSize, BatchLen(N, batchSize, s)) &&
            calls[4 * s + 1] == Backward && calls[4 * s + 2] == Update && calls[4 * s + 3] == ZeroGrad
  {
    if s < n - 1 {
      EpochCallOrder(N, batchSize, n - 1, s);
    }
  }

  /** The sum of the first `n` step losses. */
  function LossSum(loss: nat -> real, n: nat): real
  {
    if n == 0 then 0.0 else LossSum(loss, n - 1) + loss(n - 1)
  }

  /** `lossSum / max(1, steps)`. */
  function AvgLoss(lossSum: real, steps: nat): (avg: real)
    ensures steps == 0 ==> avg == lossSum
    ensures steps > 0 ==> avg * steps as real == lossSum
  {
    lossSum / (if steps < 1 then 1 else steps) as real
  }

  /** `tokenAcc`: 0 when nothing was counted, otherwise `correct / total`. */
  function TokenAcc(correct: nat, total: nat): (acc: real)
    ensures total == 0 ==> acc == 0.0
    ensures total > 0 ==> acc * total as real == correct as real
    ensures correct <= total ==> 0.0 <= acc <= 1.0
  {
    if total == 0 then 0.0 else correct as real / total as real
  }

  /** One iteration of the epoch loop: build the batch of rows
      `start = step * batchSize` onwards, record the model calls, add the
      step's loss and count the batch's tokens. */
  method TrainStep(ds: ToyDataset, batchSize: nat, step: nat, predict: (nat, nat) -> int, loss: nat -> real,
                   lossSum0: real, correct0: nat, total0: nat, calls0: seq<Call>)
    returns (lossSum: real, correct: nat, total: nat, calls: seq<Call>)
    requires ds.Valid() && batchSize > 0 && step < Steps(ds.B, batchSize)
    requires correct0 == HitsIn(Scored(ds.tgtOut, predict, Covered(ds.B, batchSize, step)), ds.PAD)
    requires total0 == TargetsIn(Scored(ds.tgtOut, predict, Covered(ds.B, batchSize, step)), ds.PAD)
    ensures correct == HitsIn(Scored(ds.tgtOut, predict, Covered(ds.B, batchSize, step + 1)), ds.PAD)
    ensures total == TargetsIn(Scored(ds.tgtOut, predict, Covered(ds.B, batchSize, step + 1)), ds.PAD)
    ensures lossSum == lossSum0 + loss(step)
    ensures calls == calls0 + [Forward(step * batchSize, BatchLen(ds.B, batchSize, step)), Backward, Update, ZeroGrad]
  {
    var N := ds.B;
    BatchPartition(N, batchSize, step);
    CoveredStep(N, batchSize, step);
    var start := step * batchSize;
    var B: nat := BatchLen(N, batchSize, step);
    assert Covered(N, batchSize, step) == start && Covered(N, batchSize, step + 1) == start + B;
    var srcRes := ds.BatchSrc(start, B);
    var tgtInRes := ds.BatchTgtIn(start, B);
    var tgtOutRes := ds.BatchTgtOut(start, B);
    var tgtOutIds := tgtOutRes.value;
    calls := calls0 + [Forward(start, B), Backward, Update, ZeroGrad];
    lossSum := lossSum0 + loss(step);
    ghost var done := Covered(N, batchSize, step + 1);
    correct, total := CountBatch(tgtOutIds, ds.tgtOut, start, B, predict, ds.PAD, correct0, total0);
    assert Scored(ds.tgtOut, predict, start + B) == Scored(ds.tgtOut, predict, done);
  }

  /** `trainEpoch(ds, batchSize)` with the shuffle draws, the model's
      predictions and the step losses given. A zero batch size divides by
      zero. Otherwise the epoch makes `Steps` steps whose calls are
      `EpochCalls`, and the accuracy counters end up counting every row of
      the dataset exactly once, whatever the batch size or the shuffle. */
  method TrainEpoch(ds: ToyDataset, batchSize: nat, shuffleDraws: seq<int>,
                    predict: (nat, nat) -> int, loss: nat -> real)
    returns (res: Result<(real, real)>, calls: seq<Call>)
    requires ds.Valid()
    requires |shuffleDraws| == ds.B && forall i :: 0 < i < ds.B ==> 0 <= shuffleDraws[i] <= i
    ensures batchSize == 0 ==> res == Err(Arithmetic) && calls == []
    ensures batchSize > 0 ==> res.Ok? && calls == EpochCalls(ds.B, batchSize, Steps(ds.B, batchSize))
    ensures batchSize > 0 ==> res.value.0 == AvgLoss(LossSum(loss, Steps(ds.B, batchSize)), Steps(ds.B, batchSize))
    ensures batchSize > 0 ==>
              res.value.1 == TokenAcc(HitsIn(Scored(ds.tgtOut, predict, ds.B), ds.PAD),
                                      TargetsIn(Scored(ds.tgtOut, predict, ds.B), ds.PAD))
  {
    if batchSize == 0 {
      return Err(Arithmetic), [];
    }
    var N := ds.B;
    var steps := Steps(N, batchSize);
    var order := Shuffle(N, shuffleDraws);
    var lossSum := 0.0;
    var correct, total := 0, 0;
    calls := [];
    StepsCeil(N, batchSize);
    for step := 0 to steps
      invariant correct == HitsIn(Scored(ds.tgtOut, predict, Covered(N, batchSize, step)), ds.PAD)
      invariant total == TargetsIn(Scored(ds.tgtOut, predict, Covered(N, batchSize, step)), ds.PAD)
      invariant lossSum == LossSum(loss, step)
      invariant calls == EpochCalls(N, batchSize, step)
    {
      lossSum, correct, total, calls := TrainStep(ds, batchSize, step, predict, loss, lossSum, correct, total, calls);
    }
    CoveredAll(N, batchSize);
    HitsBound(Scored(ds.tgtOut, predict, N), ds.PAD);
    var avgLoss := lossSum / (if steps < 1 then 1 else steps) as real;
    var tokenAcc := if total == 0 then 0.0 else correct as real / total as real;
    return Ok((avgLoss, tokenAcc)), calls;
  }
}
