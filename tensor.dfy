/** `tensor.Tensor`: the index bookkeeping of the wrapper around an ND4J
    array: axis normalisation, the permutation a `transpose` asks ND4J
    for, the dispatch of `matmul`, the arguments of `concat` and `slice`,
    and the shape's printed form. */
module Tensors {
  import opened Wrappers
  import opened TensorData
  import opened BatchedOps

  // ---------------------------------------------------------------------
  // Axes

  /** `normalizeAxis`: a negative axis counts from the end. */
  function NormalizeAxis(ax: int, r: nat): (res: Result<nat>)
    ensures res.Ok? <==> -(r as int) <= ax < r
    ensures res.Err? ==> res.error == IllegalArgument
    ensures res.Ok? ==> res.value < r && (res.value == ax || res.value == ax + r)
  {
    var a := if ax < 0 then ax + r else ax;
    if a < 0 || a >= r then Err(IllegalArgument) else Ok(a)
  }

  /** Every entry is an axis of a rank-`r` tensor and no axis repeats. */
  predicate DistinctAxes(p: seq<int>, r: nat)
  {
    (forall i :: 0 <= i < |p| ==> 0 <= p[i] < r) &&
    (forall i, j :: 0 <= i < j < |p| ==> p[i] != p[j])
  }

  /** A permutation of the axes `0 .. r-1`. */
  predicate IsPermutation(p: seq<int>, r: nat)
  {
    |p| == r && DistinctAxes(p, r)
  }

  /** `validatePermutation`: one pass with a `seen` table. It accepts
      exactly the arrays whose entries are distinct axes. */
  method ValidatePermutation(perm: array<int>, r: nat) returns (res: Outcome)
    ensures res.Pass? <==> DistinctAxes(perm[..], r)
    ensures res.Fail? ==> res.error == IllegalArgument
  {
    var seen := new bool[r](_ => false);
    for i := 0 to perm.Length
      invariant DistinctAxes(perm[..i], r)
      invariant forall v :: 0 <= v < r ==> (seen[v] <==> v in perm[..i])
    {
      var v := perm[i];
      if v < 0 || v >= r || seen[v] {
        if 0 <= v < r {
          var j :| 0 <= j < i && perm[..i][j] == v;
          assert perm[..][j] == perm[..][i];
        } else {
          assert perm[..][i] == v;
        }
        return Fail(IllegalArgument);
      }
      seen[v] := true;
      assert perm[..i + 1] == perm[..i] + [v];
    }
    assert perm[..] == perm[..perm.Length];
    return Pass;
  }

  function Identity(r: nat): (p: seq<int>)
    ensures IsPermutation(p, r)
  {
    seq(r, i => i)
  }

  /** The identity with axes `a` and `b` exchanged (`defaultPerm` then `swap`). */
  function Exchange(r: nat, a: nat, b: nat): (p: seq<int>)
    requires a < r && b < r
    ensures IsPermutation(p, r)
    ensures p[a] == b && p[b] == a
    ensures forall k :: 0 <= k < r && k != a && k != b ==> p[k] == k
  {
    Identity(r)[a := b][b := a]
  }

  /** `defaultPerm`. */
  method DefaultPerm(r: nat) returns (p: array<int>)
    ensures fresh(p) && p[..] == Identity(r)
  {
    p := new int[r];
    for i := 0 to r
      invariant p[..i] == Identity(r)[..i]
    {
      p[i] := i;
      assert p[..i + 1] == p[..i] + [i];
    }
  }

  /** `swap`: exchanges two entries in place. */
  method Swap(a: array<int>, i: nat, j: nat)
    requires i < a.Length && j < a.Length
    modifies a
    ensures a[..] == old(a[..])[i := old(a[j])][j := old(a[i])]
  {
    var t := a[i];
    a[i] := a[j];
    a[j] := t;
  }

  // ---------------------------------------------------------------------
  // transpose(int... dims)

  /** What `transpose` hands to ND4J: the tensor itself or a `permute`. */
  datatype Plan = Same | Permute(perm: seq<int>)

  predicate AxesInRange(dims: seq<int>, r: nat)
  {
    forall i :: 0 <= i < |dims| ==> -(r as int) <= dims[i] < r
  }

  function Normalized(dims: seq<int>, r: nat): (nd: seq<int>)
    requires AxesInRange(dims, r)
    ensures |nd| == |dims|
    ensures forall i :: 0 <= i < |dims| ==> nd[i] == NormalizeAxis(dims[i], r).value
  {
    seq(|dims|, i requires 0 <= i < |dims| => NormalizeAxis(dims[i], r).value)
  }

  /** The contents of `dims` after the normalising loop: entries before the
      first out-of-range axis are normalised, the rest untouched. */
  function RewrittenDims(dims: seq<int>, r: nat): seq<int>
  {
    if |dims| == 0 then []
    else match NormalizeAxis(dims[0], r)
      case Ok(a) => [a] + RewrittenDims(dims[1..], r)
      case Err(_) => dims
  }

  /** The decision `transpose(dims)` takes on a rank-`r` tensor. A null
      `dims` behaves like an empty one. */
  function TransposePlan(dims: seq<int>, r: nat): (res: Result<Plan>)
    ensures res.Err? ==> res.error == IllegalArgument
    ensures res.Ok? && res.value.Permute? ==> |res.value.perm| == r
  {
    if |dims| == 0 then
      if r < 2 then Ok(Same) else Ok(Permute(Exchange(r, r - 2, r - 1)))
    else if !AxesInRange(dims, r) then Err(IllegalArgument)
    else
      var nd := Normalized(dims, r);
      if |dims| == 2 then
        if nd[0] == nd[1] then Ok(Same) else Ok(Permute(Exchange(r, nd[0], nd[1])))
      else if |dims| == r then
        if DistinctAxes(nd, r) then Ok(Permute(nd)) else Err(IllegalArgument)
      else Err(IllegalArgument)
  }

  lemma {:induction false} RewrittenAllValid(dims: seq<int>, r: nat)
    requires AxesInRange(dims, r)
    ensures RewrittenDims(dims, r) == Normalized(dims, r)
  {
    if |dims| > 0 {
      assert AxesInRange(dims[1..], r) by {
        forall i | 0 <= i < |dims[1..]|
          ensures -(r as int) <= dims[1..][i] < r
        {
          assert dims[1..][i] == dims[i + 1];
        }
      }
      RewrittenAllValid(dims[1..], r);
    }
  }

  /** Normalising the prefix `dims[..i]` and stopping at the bad entry `i`. */
  lemma {:induction false} RewrittenStops(dims: seq<int>, r: nat, i: nat)
    requires i < |dims| && AxesInRange(dims[..i], r) && !(-(r as int) <= dims[i] < r)
    ensures RewrittenDims(dims, r) == Normalized(dims[..i], r) + dims[i..]
  {
    if i == 0 {
      assert dims[0..] == dims;
    } else {
      var rest := dims[1..][..i - 1];
      assert AxesInRange(rest, r) by {
        forall k | 0 <= k < i - 1
          ensures -(r as int) <= rest[k] < r
        {
          assert rest[k] == dims[..i][k + 1];
        }
      }
      RewrittenStops(dims[1..], r, i - 1);
      assert dims[1..][i - 1..] == dims[i..];
      assert dims[..i][0] == dims[0];
    }
  }

  /** The loop of `transpose` that rewrites each axis by `normalizeAxis`,
      stopping at the first one out of range. */
  method NormalizeInPlace(dims: array<int>, r: nat) returns (inRange: bool)
    modifies dims
    ensures inRange <==> AxesInRange(old(dims[..]), r)
    ensures dims[..] == RewrittenDims(old(dims[..]), r)
    ensures inRange ==> dims[..] == Normalized(old(dims[..]), r)
  {
    ghost var d0 := dims[..];
    for i := 0 to dims.Length
      invariant forall k :: 0 <= k < i ==> -(r as int) <= d0[k] < r && dims[k] == NormalizeAxis(d0[k], r).value
      invariant forall k :: i <= k < dims.Length ==> dims[k] == d0[k]
    {
      var n := NormalizeAxis(dims[i], r);
      if n.Err? {
        StoppedAt(d0, dims[..], r, i);
        return false;
      }
      dims[i] := n.value;
    }
    assert AxesInRange(d0, r);
    assert dims[..] == Normalized(d0, r);
    RewrittenAllValid(d0, r);
    return true;
  }

  /** The array contents when the loop stops at entry `i`. */
  lemma StoppedAt(d0: seq<int>, d: seq<int>, r: nat, i: nat)
    requires |d| == |d0| && i < |d0| && !(-(r as int) <= d0[i] < r)
    requires forall k :: 0 <= k < i ==> -(r as int) <= d0[k] < r && d[k] == NormalizeAxis(d0[k], r).value
    requires forall k :: i <= k < |d| ==> d[k] == d0[k]
    ensures !AxesInRange(d0, r)
    ensures d == RewrittenDims(d0, r)
  {
    assert AxesInRange(d0[..i], r) by {
      forall k | 0 <= k < i
        ensures -(r as int) <= d0[..i][k] < r
      {
      }
    }
    RewrittenStops(d0, r, i);
    assert d == Normalized(d0[..i], r) + d0[i..];
  }

  /** `transpose(int... dims)`: returns the plan and leaves `dims`
      normalised in place as far as the loop got. */
  method Transpose(r: nat, dims: array?<int>) returns (res: Result<Plan>)
    modifies dims
    ensures res == TransposePlan(if dims == null then [] else old(dims[..]), r)
    ensures dims != null ==> dims[..] == RewrittenDims(old(dims[..]), r)
  {
    if dims == null || dims.Length == 0 {
      if dims != null {
        assert dims[..] == [];
      }
      if r < 2 {
        return Ok(Same);
      }
      var perm := DefaultPerm(r);
      Swap(perm, r - 2, r - 1);
      return Ok(Permute(perm[..]));
    }
    ghost var d0 := dims[..];
    var inRange := NormalizeInPlace(dims, r);
    if !inRange {
      return Err(IllegalArgument);
    }
    if dims.Length == 2 {
      var a, b := dims[0], dims[1];
      if a == b {
        return Ok(Same);
      }
      var perm := DefaultPerm(r);
      Swap(perm, a, b);
      return Ok(Permute(perm[..]));
    }
    if dims.Length == r {
      var v := ValidatePermutation(dims, r);
      if v.Fail? {
        return Err(v.error);
      }
      return Ok(Permute(dims[..]));
    }
    return Err(IllegalArgument);
  }

  /** With no axes given, rank < 2 is returned as it is and otherwise the
      last two axes are exchanged. */
  lemma TransposeNoAxes(r: nat)
    ensures r < 2 ==> TransposePlan([], r) == Ok(Same)
    ensures r >= 2 ==> (TransposePlan([], r).Ok? && TransposePlan([], r).value.Permute? &&
      var p := TransposePlan([], r).value.perm;
      p[r - 2] == r - 1 && p[r - 1] == r - 2 && forall k :: 0 <= k < r - 2 ==> p[k] == k)
  {
  }

  /** Two axes: the same axis (after normalisation) leaves the tensor as it
      is; two different axes exchange exactly those two. */
  lemma TransposeTwoAxes(x: int, y: int, r: nat)
    requires -(r as int) <= x < r && -(r as int) <= y < r
    ensures var a, b := NormalizeAxis(x, r).value, NormalizeAxis(y, r).value;
            (a == b ==> TransposePlan([x, y], r) == Ok(Same)) &&
            (a != b ==> TransposePlan([x, y], r) == Ok(Permute(Exchange(r, a, b))))
  {
    assert AxesInRange([x, y], r);
  }

  /** When `transpose(dims)` throws. */
  lemma TransposeRejects(dims: seq<int>, r: nat)
    ensures TransposePlan(dims, r).Err? <==>
      |dims| > 0 &&
      (!AxesInRange(dims, r) || (|dims| != 2 && (|dims| != r || !DistinctAxes(Normalized(dims, r), r))))
    ensures TransposePlan(dims, r).Err? ==> TransposePlan(dims, r).error == IllegalArgument
  {
  }

  /** Whatever `transpose` asks ND4J to permute by is a permutation of all
      the axes. */
  lemma TransposePermutes(dims: seq<int>, r: nat)
    requires TransposePlan(dims, r).Ok? && TransposePlan(dims, r).value.Permute?
    ensures IsPermutation(TransposePlan(dims, r).value.perm, r)
  {
  }

  /** The shape ND4J's `permute(perm)` produces: axis `i` of the result is
      axis `perm[i]` of the input. */
  function PermuteShape(shape: Shape, perm: seq<int>): (s: Shape)
    requires forall i :: 0 <= i < |perm| ==> 0 <= perm[i] < |shape|
    ensures |s| == |perm| && forall i :: 0 <= i < |perm| ==> s[i] == shape[perm[i]]
  {
    seq(|perm|, i requires 0 <= i < |perm| => shape[perm[i]])
  }

  /** `transpose(-1, -2)`: on rank `r >= 2` the last two axes are exchanged;
      on a smaller rank it throws. */
  lemma TransposeLastAxes(r: nat)
    ensures r >= 2 ==> TransposePlan([-1, -2], r) == Ok(Permute(Exchange(r, r - 2, r - 1)))
    ensures r < 2 ==> TransposePlan([-1, -2], r) == Err(IllegalArgument)
  {
    if r >= 2 {
      TransposeTwoAxes(-1, -2, r);
      assert Exchange(r, r - 1, r - 2) == Exchange(r, r - 2, r - 1);
    } else {
      assert [-1, -2][1] == -2;
    }
  }

  /** The exchange `transpose(-3, -2)` of the attention helpers: on a rank
      `r >= 3` tensor it swaps axes `r-3` and `r-2`; on a smaller rank it throws. */
  lemma TransposeHeadAxes(r: nat)
    ensures r >= 3 ==> TransposePlan([-3, -2], r) == Ok(Permute(Exchange(r, r - 3, r - 2)))
    ensures r < 3 ==> TransposePlan([-3, -2], r) == Err(IllegalArgument)
  {
    if r >= 3 {
      TransposeTwoAxes(-3, -2, r);
    } else {
      assert [-3, -2][0] == -3;
    }
  }

  // ---------------------------------------------------------------------
  // matmul

  /** The rank-2 branch of `matmul`: one `gemm` into an `[M, N]` result;
      ND4J rejects inner dimensions that differ. */
  function Gemm(A: Tensor, B: Tensor): (res: Result<Tensor>)
    requires WellFormed(A) && WellFormed(B) && |A.shape| == 2 && |B.shape| == 2
    ensures res.Ok? <==> A.shape[1] == B.shape[0]
    ensures res.Err? ==> res.error == LibraryShape
    ensures res.Ok? ==> WellFormed(res.value) && res.value.shape == [A.shape[0], B.shape[1]]
  {
    var M, K, K2, N := A.shape[0], A.shape[1], B.shape[0], B.shape[1];
    if K != K2 then Err(LibraryShape)
    else
      ProductRank2(A.shape);
      ProductRank2(B.shape);
      ProductRank2([M, N]);
      MatMulDataLength(A.data, B.data, M, K, N);
      Ok(Tensor([M, N], MatMulData(A.data, B.data, M, K, N)))
  }

  /** The rank pairs and shapes `matmul` accepts: two matrices with equal
      inner dimensions, a stack of matrices times one matrix, or two stacks
      with the same leading axes (at most `IntMax` matrices per stack). */
  predicate MatmulAccepts(a: Shape, b: Shape)
  {
    var ra, rb := |a|, |b|;
    (ra == 2 && rb == 2 && a[1] == b[0]) ||
    (ra >= 3 && rb == 2 && a[ra - 1] == b[0]) ||
    (ra >= 3 && rb == ra && a[..ra - 2] == b[..ra - 2] && a[ra - 1] == b[ra - 2] && Product(a[..ra - 2]) <= IntMax)
  }

  /** `matmul`: the rank-2 `gemm`, `mmulND2` for a stack times a matrix,
      `bmmulND2` for two stacks; any other pair of ranks throws. The result
      keeps the left operand's leading axes and takes the right operand's
      last one. */
  function Matmul(A: Tensor, B: Tensor): (res: Result<Tensor>)
    requires WellFormed(A) && WellFormed(B)
    ensures res.Ok? <==> MatmulAccepts(A.shape, B.shape)
    ensures res.Ok? ==> res.value.shape == A.shape[..|A.shape| - 1] + [B.shape[|B.shape| - 1]]
    ensures res.Ok? ==> WellFormed(res.value)
  {
    var ra, rb := |A.shape|, |B.shape|;
    if ra == 2 && rb == 2 then
      assert A.shape[..1] == [A.shape[0]];
      Gemm(A, B)
    else if ra >= 3 && rb == 2 then MmulND2Spec(A, B)
    else if ra >= 3 && rb >= 3 then
      MatmulStacks(A, B);
      BmmulND2Spec(A, B)
    else Err(IllegalArgument)
  }

  /** The stack-times-stack branch of `matmul` accepts what `bmmulND2` does. */
  lemma MatmulStacks(A: Tensor, B: Tensor)
    requires WellFormed(A) && WellFormed(B) && |A.shape| >= 3 && |B.shape| >= 3
    ensures BmmulND2Spec(A, B).Ok? <==> MatmulAccepts(A.shape, B.shape)
    ensures BmmulND2Spec(A, B).Ok? ==>
              WellFormed(BmmulND2Spec(A, B).value) &&
              BmmulND2Spec(A, B).value.shape == A.shape[..|A.shape| - 1] + [B.shape[|B.shape| - 1]]
  {
    BmmulND2Outcome(A, B);
    if BmmulND2Spec(A, B).Ok? {
      BmmulND2Shape(A, B);
    }
  }

  // ---------------------------------------------------------------------
  // concat

  /** The arguments `concat` passes on to ND4J: the normalised axis and the
      arrays, in order. */
  datatype ConcatCall = ConcatCall(axis: int, parts: seq<Tensor>)

  /** `concat(dim, tensors...)`: the argument checks before ND4J. A null
      entry is `None`. The axis is only shifted, not range-checked. */
  method Concat(dim: int, tensors: array?<Option<Tensor>>) returns (res: Result<ConcatCall>)
    ensures tensors == null || tensors.Length == 0 ==> res == Err(IllegalArgument)
    ensures tensors != null && tensors.Length > 0 && tensors[0].None? ==> res == Err(NullPointer)
    ensures tensors != null && tensors.Length > 0 && tensors[0].Some? ==>
      if exists i :: 0 <= i < tensors.Length && tensors[i].None? then res == Err(IllegalArgument)
      else
        var r := |tensors[0].value.shape|;
        res.Ok? && res.value.axis == (if dim < 0 then dim + r else dim) &&
        |res.value.parts| == tensors.Length &&
        forall i :: 0 <= i < tensors.Length ==> tensors[i] == Some(res.value.parts[i])
  {
    if tensors == null || tensors.Length == 0 {
      return Err(IllegalArgument);
    }
    if tensors[0].None? {
      return Err(NullPointer);
    }
    var r := |tensors[0].value.shape|;
    var axis := if dim < 0 then dim + r else dim;
    var arrs := new Tensor[tensors.Length];
    for i := 0 to tensors.Length
      invariant forall k :: 0 <= k < i ==> tensors[k] == Some(arrs[k])
    {
      if tensors[i].None? {
        return Err(IllegalArgument);
      }
      arrs[i] := tensors[i].value;
    }
    return Ok(ConcatCall(axis, arrs[..]));
  }

  // ---------------------------------------------------------------------
  // slice

  /** ND4J index kinds used by `slice`. */
  datatype IndexSpec = All | Interval(start: int, end: int)

  /** `slice(dim, start, end)`: the index vector handed to ND4J, every axis
      whole except `[start, end)` on the chosen one. */
  method SliceIndices(rank: nat, dim: int, start: int, end: int) returns (res: Result<seq<IndexSpec>>)
    ensures res.Ok? <==> -(rank as int) <= dim < rank
    ensures res.Err? ==> res.error == IllegalArgument
    ensures res.Ok? ==> (|res.value| == rank &&
      forall i :: 0 <= i < rank ==>
        res.value[i] == if i == NormalizeAxis(dim, rank).value then Interval(start, end) else All)
  {
    var idx := new IndexSpec[rank];
    for i := 0 to rank
      invariant forall k :: 0 <= k < i ==> idx[k] == All
    {
      idx[i] := All;
    }
    var n := NormalizeAxis(dim, rank);
    if n.Err? {
      return Err(n.error);
    }
    idx[n.value] := Interval(start, end);
    return Ok(idx[..]);
  }

  // ---------------------------------------------------------------------
  // arange

  /** Java's narrowing of an integer to a signed byte. */
  function ToInt8(x: int): (b: int)
    ensures -128 <= b < 128
    ensures (x - b) % 256 == 0
    ensures -128 <= x < 128 ==> b == x
  {
    var m := x % 256;
    if m >= 128 then m - 256 else m
  }

  /** `arange(start, end)`: the integers `start .. end-1` stored as INT8. */
  function Arange(start: int, end: int): (t: Tensor)
    requires start <= end
    ensures |t.data| == end - start && t.shape == [end - start] && WellFormed(t)
    ensures forall i :: 0 <= i < end - start ==> t.data[i] == ToInt8(start + i) as real
  {
    assert [end - start][..0] == [];
    assert Product([end - start]) == end - start;
    Tensor([end - start], seq(end - start, i => ToInt8(start + i) as real))
  }

  // ---------------------------------------------------------------------
  // getShapeToString

  function DigitChar(d: nat): char
    requires d < 10
  {
    "0123456789"[d]
  }

  predicate IsDigit(c: char)
  {
    '0' <= c <= '9'
  }

  /** Decimal form of a dimension, as `StringBuilder.append(int)` writes it. */
  function DecimalString(n: nat): (s: string)
    ensures |s| > 0 && forall i :: 0 <= i < |s| ==> IsDigit(s[i])
  {
    if n < 10 then [DigitChar(n)] else DecimalString(n / 10) + [DigitChar(n % 10)]
  }

  function ParseDecimal(s: string): nat
  {
    if |s| == 0 then 0
    else
      var c := s[|s| - 1];
      ParseDecimal(s[..|s| - 1]) * 10 + (if IsDigit(c) then (c as int - '0' as int) else 0)
  }

  lemma {:induction false} DecimalRoundTrip(n: nat)
    ensures ParseDecimal(DecimalString(n)) == n
  {
    if n >= 10 {
      DecimalRoundTrip(n / 10);
      var s := DecimalString(n);
      assert s[..|s| - 1] == DecimalString(n / 10);
      DigitValue(n % 10);
      assert n == n / 10 * 10 + n % 10;
    } else {
      DigitValue(n);
    }
  }

  lemma DigitValue(d: nat)
    requires d < 10
    ensures IsDigit(DigitChar(d)) && DigitChar(d) as int - '0' as int == d
  {
  }

  /** The dimensions separated by `", "`. */
  function JoinDims(dims: seq<nat>): string
  {
    if |dims| == 0 then ""
    else if |dims| == 1 then DecimalString(dims[0])
    else JoinDims(dims[..|dims| - 1]) + ", " + DecimalString(dims[|dims| - 1])
  }

  /** The printed shape, e.g. `[2, 3, 4]`. */
  function ShapeString(shape: seq<nat>): string
  {
    "[" + JoinDims(shape) + "]"
  }

  /** One more dimension extends the joined prefix by its separator and
      its decimal form. */
  lemma JoinDimsStep(shape: seq<nat>, i: nat)
    requires i < |shape|
    ensures JoinDims(shape[..i + 1]) == JoinDims(shape[..i]) + (if i > 0 then ", " else "") + DecimalString(shape[i])
  {
    assert shape[..i + 1][..i] == shape[..i];
  }

  /** `getShapeToString`: builds the string one dimension at a time. */
  method ShapeToString(shape: seq<nat>) returns (s: string)
    ensures s == ShapeString(shape)
  {
    var r := |shape|;
    s := "[";
    for i := 0 to r
      invariant s == "[" + JoinDims(shape[..i]) + (if 0 < i < r then ", " else "")
    {
      JoinDimsStep(shape, i);
      ghost var sep := if 0 < i then ", " else "";
      assert s == "[" + JoinDims(shape[..i]) + sep;
      s := s + DecimalString(shape[i]);
      assert s == "[" + (JoinDims(shape[..i]) + sep + DecimalString(shape[i]));
      if i < r - 1 {
        s := s + ", ";
      }
    }
    assert shape[..r] == shape;
    s := s + "]";
  }

  /** Position of the last comma, or -1. */
  function LastComma(s: string): (k: int)
    ensures -1 <= k < |s|
    ensures k >= 0 ==> s[k] == ','
  {
    if |s| == 0 then -1
    else if s[|s| - 1] == ',' then |s| - 1
    else LastComma(s[..|s| - 1])
  }

  /** Reads a comma-separated list of decimals back. */
  function ParseDims(s: string): seq<nat>
    decreases |s|
  {
    if |s| == 0 then []
    else
      var k := LastComma(s);
      if k < 0 then [ParseDecimal(s)]
      else if k + 2 <= |s| then ParseDims(s[..k]) + [ParseDecimal(s[k + 2..])]
      else ParseDims(s[..k]) + [ParseDecimal(s[k + 1..])]
  }

  /** The shape read back from its printed form. */
  function ParseShape(s: string): seq<nat>
  {
    if |s| >= 2 && s[0] == '[' && s[|s| - 1] == ']' then ParseDims(s[1..|s| - 1]) else []
  }

  lemma {:induction false} LastCommaOfDigits(a: string, b: string)
    requires forall i :: 0 <= i < |b| ==> IsDigit(b[i])
    ensures LastComma(a + ", " + b) == |a|
    decreases |b|
  {
    var s := a + ", " + b;
    if |b| == 0 {
      assert s[..|s| - 1] == a + ",";
    } else {
      assert s[..|s| - 1] == a + ", " + b[..|b| - 1];
      LastCommaOfDigits(a, b[..|b| - 1]);
    }
  }

  lemma {:induction false} NoCommaInDigits(b: string)
    requires forall i :: 0 <= i < |b| ==> IsDigit(b[i])
    ensures LastComma(b) == -1
    decreases |b|
  {
    if |b| > 0 {
      NoCommaInDigits(b[..|b| - 1]);
    }
  }

  lemma {:induction false} JoinDimsRoundTrip(dims: seq<nat>)
    ensures ParseDims(JoinDims(dims)) == dims
  {
    if |dims| == 1 {
      NoCommaInDigits(DecimalString(dims[0]));
      DecimalRoundTrip(dims[0]);
    } else if |dims| >= 2 {
      var init := dims[..|dims| - 1];
      var a, b := JoinDims(init), DecimalString(dims[|dims| - 1]);
      var s := a + ", " + b;
      assert JoinDims(dims) == s;
      LastCommaOfDigits(a, b);
      assert s[..|a|] == a && s[|a| + 2..] == b;
      assert ParseDims(s) == ParseDims(a) + [ParseDecimal(b)];
      JoinDimsRoundTrip(init);
      DecimalRoundTrip(dims[|dims| - 1]);
      assert dims == init + [dims[|dims| - 1]];
    }
  }

  /** The printed shape determines the shape: reading it back gives the
      dimensions in order. */
  lemma ShapeStringRoundTrip(shape: seq<nat>)
    ensures ParseShape(ShapeString(shape)) == shape
  {
    var s := ShapeString(shape);
    assert s[1..|s| - 1] == JoinDims(shape);
    JoinDimsRoundTrip(shape);
  }
}
