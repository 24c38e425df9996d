/** `nn.transformer.Generator`: greedy decoding. A buffer of `maxLen` ids
    starts as `[BOS, PAD, ...]`; at every step the model's logits for the
    last filled position are penalised on banned ids (BOS and PAD always,
    EOS while fewer than `minGen` tokens exist), the first maximum is
    written, and an EOS ends the decode. The model is an input: `model(buf, t)`
    is the row of next-token logits it produces for the buffer `buf` at
    position `t - 1`. */
module Generator {
  import opened Wrappers
  import opened TensorData
  import opened Tensors

  /** The additive penalty per ban (`NEG_INF = -1e9`). */
  const BanPenalty: real := -1000000000.0

  /** `validSequenceLength`'s answer: the number of ids of `row` before its
      first `padId`. */
  function LeadingLength(row: seq<int>, padId: int): (n: nat)
    ensures n <= |row| && (forall i :: 0 <= i < n ==> row[i] != padId) && (n < |row| ==> row[n] == padId)
  {
    if |row| == 0 || row[0] == padId then 0 else 1 + LeadingLength(row[1..], padId)
  }

  /** Row 0 of a `[B, S]` id tensor. */
  function FirstRow(src: Tensor): (row: seq<int>)
    requires WellFormed(src) && |src.shape| == 2 && src.shape[0] >= 1
    ensures |row| == src.shape[1] && forall i :: 0 <= i < src.shape[1] ==> row[i] == IdAt(src, 0, i)
  {
    seq(src.shape[1], i requires 0 <= i < src.shape[1] => IdAt(src, 0, i))
  }

  /** `validSequenceLength(sequence, padId)`: count the ids of row 0 until
      the first pad. */
  method ValidSequenceLength(src: Tensor, padId: int) returns (validLen: nat)
    requires WellFormed(src) && |src.shape| == 2 && src.shape[0] >= 1
    ensures validLen == LeadingLength(FirstRow(src), padId)
  {
    var S := src.shape[1];
    ghost var row := FirstRow(src);
    validLen := 0;
    for i := 0 to S
      invariant validLen == i && forall k :: 0 <= k < i ==> row[k] != padId
    {
      if IdAt(src, 0, i) == padId {
        break;
      }
      validLen := validLen + 1;
    }
    LeadingLengthUnique(row, padId, validLen);
  }

  /** Any count of leading non-pad ids that stops at a pad (or the end) is
      `LeadingLength`. */
  lemma {:induction false} LeadingLengthUnique(row: seq<int>, padId: int, n: nat)
    requires n <= |row| && (forall i :: 0 <= i < n ==> row[i] != padId) && (n < |row| ==> row[n] == padId)
    ensures n == LeadingLength(row, padId)
  {
    if n > 0 {
      LeadingLengthUnique(row[1..], padId, n - 1);
    }
  }

  /** `minGen = max(1, min(srcLen, maxLen - 1))`. */
  function MinGen(srcLen: int, maxLen: int): (m: int)
    ensures m >= 1
    ensures maxLen >= 2 ==> m <= maxLen - 1
    ensures m == 1 || (m <= srcLen && m <= maxLen - 1)
  {
    var inner := if srcLen < maxLen - 1 then srcLen else maxLen - 1;
    if inner > 1 then inner else 1
  }

  /** The first index of a maximal element (`argmax`). */
  function ArgMax(xs: seq<real>): (k: nat)
    requires |xs| > 0
    ensures k < |xs|
    ensures forall j :: 0 <= j < |xs| ==> xs[j] <= xs[k]
    ensures forall j :: 0 <= j < k ==> xs[j] < xs[k]
  {
    if |xs| == 1 then 0
    else
      var k := ArgMax(xs[..|xs| - 1]);
      if xs[|xs| - 1] > xs[k] then |xs| - 1 else k
  }

  /** How many of the ban conditions hit class `cls`. */
  function Hits(cls: int, bosId: int, padId: int, eosId: int, banEos: bool): real
  {
    (if cls == bosId then 1.0 else 0.0) + (if cls == padId then 1.0 else 0.0) +
    (if banEos && cls == eosId then 1.0 else 0.0)
  }

  /** The value a ban compares for the id or class `x`: as written, the
      signed byte ND4J stores it as; as intended, `x` itself. */
  function Key(x: int, written: bool): (k: int)
    ensures 0 <= x < 128 ==> k == x
  {
    if written then ToInt8(x) else x
  }

  /** Whether class `cls` is banned: its key is BOS's or PAD's key, or
      EOS's key while EOS is banned. */
  predicate Banned(cls: int, bosId: int, padId: int, eosId: int, banEos: bool, written: bool)
  {
    var k := Key(cls, written);
    k == Key(bosId, written) || k == Key(padId, written) || (banEos && k == Key(eosId, written))
  }

  /** The ban vector as written: `arange(0, V)` is stored as INT8 and
      `eq(id)` compares against a scalar of that same type, so class `i`
      and the id are both compared through their wrapped byte values. */
  function BanAsWritten(V: nat, bosId: int, padId: int, eosId: int, banEos: bool): (ban: seq<real>)
    ensures |ban| == V
    ensures forall i :: 0 <= i < V ==> ban[i] == Hits(ToInt8(i), ToInt8(bosId), ToInt8(padId), ToInt8(eosId), banEos)
  {
    var classes := Arange(0, V);
    seq(V, i requires 0 <= i < V => Hits(classes.data[i].Floor, ToInt8(bosId), ToInt8(padId), ToInt8(eosId), banEos))
  }

  /** The intended ban vector: class `i` is banned when `i` itself is BOS,
      PAD, or (while `banEos`) EOS. */
  function Ban(V: nat, bosId: int, padId: int, eosId: int, banEos: bool): (ban: seq<real>)
    ensures |ban| == V
    ensures forall i :: 0 <= i < V ==>
              (ban[i] >= 1.0 <==> i == bosId || i == padId || (banEos && i == eosId)) &&
              (ban[i] == 0.0 <==> !(i == bosId || i == padId || (banEos && i == eosId)))
  {
    seq(V, i requires 0 <= i < V => Hits(i, bosId, padId, eosId, banEos))
  }

  /** The ban of one decoding step, as written or as intended: a weight of
      at least 1 exactly on the banned classes and 0 elsewhere. */
  function StepBan(V: nat, bosId: int, padId: int, eosId: int, banEos: bool, written: bool): (ban: seq<real>)
    ensures |ban| == V
    ensures forall i :: 0 <= i < V ==>
              (ban[i] >= 1.0 <==> Banned(i, bosId, padId, eosId, banEos, written)) &&
              (ban[i] == 0.0 <==> !Banned(i, bosId, padId, eosId, banEos, written))
  {
    if written then BanAsWritten(V, bosId, padId, eosId, banEos) else Ban(V, bosId, padId, eosId, banEos)
  }

  /** With a vocabulary above 256 the written ban hits classes that are not
      banned ids: class 257 narrows to BOS = 1, and an id of 300 narrows to
      class 44. The intended ban hits neither. */
  lemma BanWrapsAround()
    ensures BanAsWritten(300, 1, 0, 2, false)[257] == 1.0 && Ban(300, 1, 0, 2, false)[257] == 0.0
    ensures BanAsWritten(300, 300, 0, 2, false)[44] == 1.0 && Ban(300, 300, 0, 2, false)[44] == 0.0
  {
    assert ToInt8(257) == 1;
    assert ToInt8(300) == 44;
  }

  /** A class below 128 and an id that fits a signed or an unsigned byte
      have equal bytes exactly when they are equal. */
  lemma SmallKeys(i: int, id: int)
    requires 0 <= i < 128 && -128 <= id < 256
    ensures ToInt8(i) == ToInt8(id) <==> i == id
  {
    if id >= 128 {
      assert id % 256 == id;
    }
  }

  /** For at most 128 classes and ids that fit a byte, the two ban vectors
      agree. */
  lemma BanAgreesBelow128(V: nat, bosId: int, padId: int, eosId: int, banEos: bool)
    requires V <= 128
    requires -128 <= bosId < 256 && -128 <= padId < 256 && -128 <= eosId < 256
    ensures BanAsWritten(V, bosId, padId, eosId, banEos) == Ban(V, bosId, padId, eosId, banEos)
  {
    var a, b := BanAsWritten(V, bosId, padId, eosId, banEos), Ban(V, bosId, padId, eosId, banEos);
    forall i | 0 <= i < V
      ensures a[i] == b[i]
    {
      SmallKeys(i, bosId);
      SmallKeys(i, padId);
      SmallKeys(i, eosId);
      assert ToInt8(i) == i;
    }
  }

  /** `last.add(ban.mul(NEG_INF))`. */
  function Penalised(logits: seq<real>, ban: seq<real>): (adj: seq<real>)
    requires |ban| == |logits|
    ensures |adj| == |logits|
    ensures forall i :: 0 <= i < |logits| ==> (ban[i] == 0.0 ==> adj[i] == logits[i]) &&
                                              (ban[i] >= 1.0 ==> adj[i] <= logits[i] + BanPenalty)
  {
    seq(|logits|, i requires 0 <= i < |logits| => logits[i] + ban[i] * BanPenalty)
  }

  /** The token picked from one row of logits: the first maximum of the
      penalised row. */
  function Pick(logits: seq<real>, bosId: int, padId: int, eosId: int, banEos: bool, written: bool): (k: nat)
    requires |logits| > 0
    ensures k < |logits|
    ensures var adj := Penalised(logits, StepBan(|logits|, bosId, padId, eosId, banEos, written));
            (forall j :: 0 <= j < |logits| ==> adj[j] <= adj[k]) && (forall j :: 0 <= j < k ==> adj[j] < adj[k])
  {
    ArgMax(Penalised(logits, StepBan(|logits|, bosId, padId, eosId, banEos, written)))
  }

  /** A row of logits whose entries lie within `1e9` of each other and
      that has at least four classes, so that some class is never banned. */
  predicate Tame(logits: seq<real>)
  {
    |logits| >= 4 && forall i, j :: 0 <= i < |logits| && 0 <= j < |logits| ==> logits[i] - logits[j] < -BanPenalty
  }

  /** On a tame row the penalty works: the pick is never a banned class. */
  lemma PickNotBanned(logits: seq<real>, bosId: int, padId: int, eosId: int, banEos: bool, written: bool)
    requires Tame(logits)
    ensures !Banned(Pick(logits, bosId, padId, eosId, banEos, written), bosId, padId, eosId, banEos, written)
  {
    var ban := StepBan(|logits|, bosId, padId, eosId, banEos, written);
    var adj := Penalised(logits, ban);
    assert Key(0, written) == 0 && Key(1, written) == 1 && Key(2, written) == 2 && Key(3, written) == 3;
    var u :| u in {0, 1, 2, 3} && !Banned(u, bosId, padId, eosId, banEos, written);
    assert adj[u] == logits[u];
  }

  /** The decode loop from position `tLen` on, for buffer `buf`, with the
      written or the intended ban. The ids already generated are kept:
      a result starts with `buf[1..tLen)` and fits the buffer. */
  function DecodeFrom(model: (seq<int>, nat) -> seq<real>, buf: seq<int>, tLen: nat,
                      minGen: int, bosId: int, eosId: int, padId: int, written: bool): (r: Result<seq<int>>)
    requires 1 <= tLen <= |buf|
    ensures r.Err? ==> r.error == LibraryShape
    ensures r.Ok? ==> tLen - 1 <= |r.value| <= |buf| - 1 && r.value[..tLen - 1] == buf[1..tLen]
    decreases |buf| - tLen
  {
    if tLen == |buf| then Ok(buf[1..tLen])
    else
      var logits := model(buf, tLen);
      if |logits| == 0 then Err(LibraryShape)
      else
        var next := Pick(logits, bosId, padId, eosId, tLen <= minGen, written);
        var buf' := buf[tLen := next];
        assert buf'[1..tLen] == buf[1..tLen];
        if next == eosId then Ok(buf'[1..tLen])
        else
          var r := DecodeFrom(model, buf', tLen + 1, minGen, bosId, eosId, padId, written);
          assert r.Ok? ==> r.value[..tLen - 1] == r.value[..tLen][..tLen - 1] == buf'[1..tLen + 1][..tLen - 1];
          r
  }

  /** `greedyDecode(model, srcTokens, maxLen, bosId, eosId, padId)`, with
      `srcLen = validSequenceLength(srcTokens, padId)`: a negative `maxLen`
      fails to allocate the buffer, `maxLen == 0` fails to write BOS; a
      result holds at most `maxLen - 1` ids. */
  function GreedyDecodeSpec(model: (seq<int>, nat) -> seq<real>, srcLen: nat, maxLen: int,
                            bosId: int, eosId: int, padId: int, written: bool): (r: Result<seq<int>>)
    ensures maxLen < 0 ==> r == Err(NegativeArraySize)
    ensures maxLen == 0 ==> r == Err(IndexOutOfBounds)
    ensures maxLen > 0 && r.Err? ==> r.error == LibraryShape
    ensures r.Ok? ==> |r.value| <= maxLen - 1
  {
    if maxLen < 0 then Err(NegativeArraySize)
    else if maxLen == 0 then Err(IndexOutOfBounds)
    else DecodeFrom(model, [bosId] + seq(maxLen - 1, _ => padId), 1, MinGen(srcLen, maxLen), bosId, eosId, padId, written)
  }

  /** The output buffer of the decode loop: `maxLen` PAD ids with BOS
      written at position 0. */
  method NewBuffer(maxLen: nat, bosId: int, padId: int) returns (out: array<int>)
    requires maxLen >= 1
    ensures fresh(out) && out[..] == [bosId] + seq(maxLen - 1, _ => padId)
  {
    out := new int[maxLen];
    forall i | 0 <= i < maxLen {
      out[i] := padId;
    }
    out[0] := bosId;
  }

  /** The decode loop on the buffer `out`, from position 1 on. */
  method DecodeLoop(model: (seq<int>, nat) -> seq<real>, out: array<int>, minGen: int,
                    bosId: int, eosId: int, padId: int, written: bool) returns (res: Result<seq<int>>)
    requires out.Length >= 1
    modifies out
    ensures res == DecodeFrom(model, old(out[..]), 1, minGen, bosId, eosId, padId, written)
  {
    var tLen := 1;
    while tLen < out.Length
      invariant 1 <= tLen <= out.Length
      invariant DecodeFrom(model, out[..], tLen, minGen, bosId, eosId, padId, written) ==
                DecodeFrom(model, old(out[..]), 1, minGen, bosId, eosId, padId, written)
      decreases out.Length - tLen
    {
      ghost var buf := out[..];
      var logits := model(out[..], tLen);
      if |logits| == 0 {
        return Err(LibraryShape);
      }
      var nextId := Pick(logits, bosId, padId, eosId, tLen <= minGen, written);
      DecodeFromStops(model, buf, tLen, minGen, bosId, eosId, padId, written);
      out[tLen] := nextId;
      assert out[..] == buf[tLen := nextId];
      if nextId == eosId {
        assert out[1..tLen] == buf[1..tLen];
        return Ok(out[1..tLen]);
      }
      tLen := tLen + 1;
    }
    return Ok(out[1..tLen]);
  }

  /** `greedyDecode` as written: every step bans through the INT8 class
      labels. */
  method GreedyDecode(model: (seq<int>, nat) -> seq<real>, src: Tensor, maxLen: int,
                      bosId: int, eosId: int, padId: int) returns (res: Result<seq<int>>)
    requires WellFormed(src) && |src.shape| == 2 && src.shape[0] >= 1
    ensures res == GreedyDecodeSpec(model, LeadingLength(FirstRow(src), padId), maxLen, bosId, eosId, padId, true)
  {
    var srcLen := ValidSequenceLength(src, padId);
    var minGen := MinGen(srcLen, maxLen);
    if maxLen < 0 {
      return Err(NegativeArraySize);
    }
    if maxLen == 0 {
      return Err(IndexOutOfBounds);
    }
    var out := NewBuffer(maxLen, bosId, padId);
    res := DecodeLoop(model, out, minGen, bosId, eosId, padId, true);
  }

  /** No id of `s` has BOS's or PAD's key, and none is EOS. */
  predicate Clean(s: seq<int>, bosId: int, eosId: int, padId: int, written: bool)
  {
    forall i :: 0 <= i < |s| ==>
      Key(s[i], written) != Key(bosId, written) && Key(s[i], written) != Key(padId, written) && s[i] != eosId
  }

  /** With a model whose rows are always tame, decoding from a buffer whose
      generated part is clean succeeds with a clean result that is either
      the full `maxLen - 1` ids or ended by EOS after more than `minGen`
      steps. */
  lemma {:induction false} DecodeFromClean(model: (seq<int>, nat) -> seq<real>, buf: seq<int>, tLen: nat,
                                           minGen: int, bosId: int, eosId: int, padId: int, written: bool)
    requires 1 <= tLen <= |buf|
    requires forall b, t :: Tame(model(b, t))
    requires Clean(buf[1..tLen], bosId, eosId, padId, written)
    ensures var r := DecodeFrom(model, buf, tLen, minGen, bosId, eosId, padId, written);
            r.Ok? && Clean(r.value, bosId, eosId, padId, written) &&
            (|r.value| == |buf| - 1 || |r.value| >= minGen)
    decreases |buf| - tLen
  {
    if tLen < |buf| {
      var logits := model(buf, tLen);
      assert Tame(logits);
      var next := Pick(logits, bosId, padId, eosId, tLen <= minGen, written);
      PickNotBanned(logits, bosId, padId, eosId, tLen <= minGen, written);
      var buf' := buf[tLen := next];
      assert buf'[1..tLen] == buf[1..tLen];
      if next != eosId {
        assert buf'[1..tLen + 1] == buf[1..tLen] + [next];
        DecodeFromClean(model, buf', tLen + 1, minGen, bosId, eosId, padId, written);
      }
    }
  }

  /** The decode result: for `maxLen >= 2` and a tame model, between
      `minGen` and `maxLen - 1` ids, none of them EOS and none with BOS's
      or PAD's key (for the intended ban: none of them BOS, PAD or EOS). */
  lemma GreedyDecodeClean(model: (seq<int>, nat) -> seq<real>, srcLen: nat, maxLen: int,
                          bosId: int, eosId: int, padId: int, written: bool)
    requires maxLen >= 2 && forall b, t :: Tame(model(b, t))
    ensures var r := GreedyDecodeSpec(model, srcLen, maxLen, bosId, eosId, padId, written);
            r.Ok? && Clean(r.value, bosId, eosId, padId, written) &&
            MinGen(srcLen, maxLen) <= |r.value| <= maxLen - 1
  {
    var buf := [bosId] + seq(maxLen - 1, _ => padId);
    DecodeFromClean(model, buf, 1, MinGen(srcLen, maxLen), bosId, eosId, padId, written);
  }

  /** On a row of at most 128 logits, with ids that fit a byte, both bans
      pick the same token. */
  lemma PickAgrees(logits: seq<real>, bosId: int, padId: int, eosId: int, banEos: bool)
    requires 0 < |logits| <= 128
    requires -128 <= bosId < 256 && -128 <= padId < 256 && -128 <= eosId < 256
    ensures Pick(logits, bosId, padId, eosId, banEos, true) == Pick(logits, bosId, padId, eosId, banEos, false)
  {
    BanAgreesBelow128(|logits|, bosId, padId, eosId, banEos);
    assert StepBan(|logits|, bosId, padId, eosId, banEos, true) == StepBan(|logits|, bosId, padId, eosId, banEos, false);
  }

  /** With at most 128 classes per row and ids that fit a byte, the
      written and the intended decoders give the same result. */
  lemma {:induction false} DecodeFromAgree(model: (seq<int>, nat) -> seq<real>, buf: seq<int>, tLen: nat,
                                           minGen: int, bosId: int, eosId: int, padId: int)
    requires 1 <= tLen <= |buf|
    requires forall b, t :: |model(b, t)| <= 128
    requires -128 <= bosId < 256 && -128 <= padId < 256 && -128 <= eosId < 256
    ensures DecodeFrom(model, buf, tLen, minGen, bosId, eosId, padId, true) ==
            DecodeFrom(model, buf, tLen, minGen, bosId, eosId, padId, false)
    decreases |buf| - tLen
  {
    var next, more := StepAgrees(model, buf, tLen, minGen, bosId, eosId, padId);
    if more {
      DecodeFromAgree(model, buf[tLen := next], tLen + 1, minGen, bosId, eosId, padId);
    }
  }

  /** One step of the two decoders on a row of at most 128 logits: either
      both stop with the same result, or both write the same `next` at
      `tLen` and go on. */
  lemma StepAgrees(model: (seq<int>, nat) -> seq<real>, buf: seq<int>, tLen: nat,
                   minGen: int, bosId: int, eosId: int, padId: int) returns (next: int, more: bool)
    requires 1 <= tLen <= |buf| && |model(buf, tLen)| <= 128
    requires -128 <= bosId < 256 && -128 <= padId < 256 && -128 <= eosId < 256
    ensures !more ==> DecodeFrom(model, buf, tLen, minGen, bosId, eosId, padId, true) ==
                      DecodeFrom(model, buf, tLen, minGen, bosId, eosId, padId, false)
    ensures more ==> tLen < |buf|
    ensures more ==> DecodeFrom(model, buf, tLen, minGen, bosId, eosId, padId, true) ==
                     DecodeFrom(model, buf[tLen := next], tLen + 1, minGen, bosId, eosId, padId, true)
    ensures more ==> DecodeFrom(model, buf, tLen, minGen, bosId, eosId, padId, false) ==
                     DecodeFrom(model, buf[tLen := next], tLen + 1, minGen, bosId, eosId, padId, false)
  {
    next, more := 0, false;
    if tLen < |buf| && |model(buf, tLen)| > 0 {
      var logits := model(buf, tLen);
      PickAgrees(logits, bosId, padId, eosId, tLen <= minGen);
      next := Pick(logits, bosId, padId, eosId, tLen <= minGen, false);
      DecodeFromStops(model, buf, tLen, minGen, bosId, eosId, padId, true);
      DecodeFromStops(model, buf, tLen, minGen, bosId, eosId, padId, false);
      more := next != eosId;
    }
  }

  /** `greedyDecode` as written decodes as intended when the vocabulary has
      at most 128 classes and the special ids fit a byte. */
  lemma GreedyDecodeAgree(model: (seq<int>, nat) -> seq<real>, srcLen: nat, maxLen: int,
                          bosId: int, eosId: int, padId: int)
    requires forall b, t :: |model(b, t)| <= 128
    requires -128 <= bosId < 256 && -128 <= padId < 256 && -128 <= eosId < 256
    ensures GreedyDecodeSpec(model, srcLen, maxLen, bosId, eosId, padId, true) ==
            GreedyDecodeSpec(model, srcLen, maxLen, bosId, eosId, padId, false)
  {
    if maxLen > 0 {
      DecodeFromAgree(model, [bosId] + seq(maxLen - 1, _ => padId), 1, MinGen(srcLen, maxLen), bosId, eosId, padId);
    }
  }

  /** Decoding that never meets EOS returns all of `out[1..maxLen)`; an
      EOS picked at step `tLen` returns `out[1..tLen)`. */
  lemma DecodeFromStops(model: (seq<int>, nat) -> seq<real>, buf: seq<int>, tLen: nat,
                        minGen: int, bosId: int, eosId: int, padId: int, written: bool)
    requires 1 <= tLen < |buf| && |model(buf, tLen)| > 0
    ensures var next := Pick(model(buf, tLen), bosId, padId, eosId, tLen <= minGen, written);
            var r := DecodeFrom(model, buf, tLen, minGen, bosId, eosId, padId, written);
            (next == eosId ==> r == Ok(buf[1..tLen])) &&
            (next != eosId ==> r == DecodeFrom(model, buf[tLen := next], tLen + 1, minGen, bosId, eosId, padId, written))
  {
    var next := Pick(model(buf, tLen), bosId, padId, eosId, tLen <= minGen, written);
    assert buf[tLen := next][1..tLen] == buf[1..tLen];
  }
}
