/** The Torch tensor operations that mean pooling is written with, on dense
    row-major tensors: creation from a flat buffer, unsqueeze, expand, the
    float cast, elementwise product, clamp and quotient, and the sum over one
    axis. Floats are real numbers here. The ensures of these primitives define
    what each Torch operation does; the properties of the pooling built from
    them are proved in PoolingHelpers. */
module Tensors {
  import opened Common

  /** float.MaxValue, the upper bound of the mask-sum clamp. */
  const FloatMax: real := 340282346638528859811704183484516925440.0

  /** 1e-9, the lower bound of the mask-sum clamp. */
  const MaskSumFloor: real := 0.000000001

  /** A dense row-major tensor: its elements and its shape. */
  datatype Tensor<T> = Tensor(data: seq<T>, shape: seq<int>) {
    predicate Valid() {
      NonNegative(shape) && |data| == Prod(shape)
    }
  }

  /** Torch.tensor(array, dimensions): fails unless the shape describes the buffer. */
  function FromArray<T>(data: seq<T>, dims: seq<int>): (r: Result<Tensor<T>>)
    ensures r.Ok? <==> NonNegative(dims) && |data| == Prod(dims)
    ensures r.Ok? ==> r.value.Valid() && r.value.data == data && r.value.shape == dims
  {
    if NonNegative(dims) && |data| == Prod(dims) then Ok(Tensor(data, dims)) else Err(ShapeMismatch)
  }

  /** unsqueeze(-1): a trailing axis of extent 1, the elements unchanged. */
  function UnsqueezeLast<T>(t: Tensor<T>): (r: Tensor<T>)
    requires t.Valid()
    ensures r.Valid() && r.data == t.data && r.shape == t.shape + [1]
  {
    ProdAppend(t.shape, 1);
    Tensor(t.data, t.shape + [1])
  }

  /** The broadcast that expand performs here: same rank, the trailing axis
      grows from extent 1, every other extent is kept. */
  predicate CanExpandLast(shape: seq<int>, target: seq<int>) {
    |target| == |shape| >= 1 && NonNegative(target) && shape == target[..|target| - 1] + [1]
  }

  /** expand(target) of a tensor whose trailing axis has extent 1: every element
      is repeated along that axis. Other broadcasts are reported as shape errors. */
  function ExpandLast<T>(t: Tensor<T>, target: seq<int>): (r: Result<Tensor<T>>)
    requires t.Valid()
    ensures r.Ok? <==> CanExpandLast(t.shape, target)
    ensures r.Ok? ==> r.value.Valid() && r.value.shape == target
    ensures r.Ok? ==> |target| >= 1 && forall k :: 0 <= k < |r.value.data| ==>
              target[|target| - 1] > 0 && k / target[|target| - 1] < |t.data| &&
              r.value.data[k] == t.data[k / target[|target| - 1]]
  {
    if !CanExpandLast(t.shape, target) then Err(ShapeMismatch)
    else
      var h := target[|target| - 1];
      ExpandedCount(t.shape, target);
      Ok(Tensor(Repeat(t.data, h, Prod(target)), target))
  }

  /** Growing the trailing axis from 1 to h multiplies the element count by h. */
  lemma ExpandedCount(shape: seq<int>, target: seq<int>)
    requires CanExpandLast(shape, target)
    ensures Prod(target) == Prod(shape) * target[|target| - 1]
    ensures Prod(target) > 0 ==> target[|target| - 1] > 0
  {
    var prefix, h := target[..|target| - 1], target[|target| - 1];
    assert target == prefix + [h];
    ProdAppend(prefix, h);
    ProdAppend(prefix, 1);
    if h == 0 {
      assert Prod(target) == Prod(prefix) * 0;
    }
  }

  /** Element k of the result is element k / h of `data`: each element
      repeated h times. */
  function Repeat<T>(data: seq<T>, h: int, n: nat): (r: seq<T>)
    requires n > 0 ==> h > 0
    requires n <= |data| * h
    ensures |r| == n
    ensures forall k :: 0 <= k < n ==> h > 0 && k / h < |data| && r[k] == data[k / h]
  {
    seq(n, k requires 0 <= k < n => (DivBelow(k, |data|, h); data[k / h]))
  }

  /** .to(float32) on an integer tensor. */
  function ToFloat32(t: Tensor<int>): (r: Tensor<real>)
    requires t.Valid()
    ensures r.Valid() && r.shape == t.shape
    ensures forall k :: 0 <= k < |r.data| ==> r.data[k] == t.data[k] as real
  {
    Tensor(seq(|t.data|, k requires 0 <= k < |t.data| => t.data[k] as real), t.shape)
  }

  /** The elementwise product of two tensors of one shape. */
  function Mul(a: Tensor<real>, b: Tensor<real>): (r: Tensor<real>)
    requires a.Valid() && b.Valid() && a.shape == b.shape
    ensures r.Valid() && r.shape == a.shape
    ensures forall k :: 0 <= k < |r.data| ==> r.data[k] == a.data[k] * b.data[k]
  {
    Tensor(seq(|a.data|, k requires 0 <= k < |a.data| => a.data[k] * b.data[k]), a.shape)
  }

  function Clamp(x: real, lo: real, hi: real): real {
    if x < lo then lo else if x > hi then hi else x
  }

  /** clamp(min, max) of every element. */
  function ClampAll(t: Tensor<real>, lo: real, hi: real): (r: Tensor<real>)
    requires t.Valid() && lo <= hi
    ensures r.Valid() && r.shape == t.shape
    ensures forall k :: 0 <= k < |r.data| ==> lo <= r.data[k] <= hi && r.data[k] == Clamp(t.data[k], lo, hi)
  {
    Tensor(seq(|t.data|, k requires 0 <= k < |t.data| => Clamp(t.data[k], lo, hi)), t.shape)
  }

  /** The elementwise quotient of two tensors of one shape. */
  function Div(a: Tensor<real>, b: Tensor<real>): (r: Tensor<real>)
    requires a.Valid() && b.Valid() && a.shape == b.shape
    requires forall k :: 0 <= k < |b.data| ==> b.data[k] != 0.0
    ensures r.Valid() && r.shape == a.shape
    ensures forall k :: 0 <= k < |r.data| ==> r.data[k] == a.data[k] / b.data[k]
  {
    Tensor(seq(|a.data|, k requires 0 <= k < |a.data| => a.data[k] / b.data[k]), a.shape)
  }

  /** Σ_{j < m} data[(o * n + j) * inner + i]: the first m terms of the sum
      along an axis of extent n, at outer index o and inner index i. */
  function AxisSum(data: seq<real>, outer: nat, n: nat, inner: nat, o: nat, i: nat, m: nat): real
    requires |data| == outer * (n * inner) && o < outer && i < inner && m <= n
  {
    if m == 0 then 0.0
    else
      IndexInRange(outer, n, inner, o, m - 1, i);
      AxisSum(data, outer, n, inner, o, i, m - 1) + data[(o * n + m - 1) * inner + i]
  }

  /** Element counts before, along and after an axis. */
  lemma ProdSplit(dims: seq<int>, d: nat)
    requires d < |dims|
    ensures Prod(dims) == Prod(dims[..d]) * (dims[d] * Prod(dims[d + 1..]))
    ensures Prod(dims[..d] + dims[d + 1..]) == Prod(dims[..d]) * Prod(dims[d + 1..])
    decreases d
  {
    if d == 0 {
      assert dims[..0] + dims[1..] == dims[1..];
    } else {
      ProdSplit(dims[1..], d - 1);
      assert dims[1..][..d - 1] == dims[1..d] && dims[1..][d - 1] == dims[d] && dims[1..][d..] == dims[d + 1..];
      assert dims[..d][1..] == dims[1..d];
      assert (dims[..d] + dims[d + 1..])[1..] == dims[1..d] + dims[d + 1..];
      MulAssoc(dims[0], Prod(dims[1..d]), dims[d] * Prod(dims[d + 1..]));
      MulAssoc(dims[0], Prod(dims[1..d]), Prod(dims[d + 1..]));
    }
  }

  /** The axis `axis` of a tensor, counted from the end when negative as in Torch. */
  function NormalizeAxis(axis: int, rank: int): (d: int)
    ensures -rank <= axis < rank ==> 0 <= d < rank
  {
    if axis < 0 then axis + rank else axis
  }

  /** Element k of the sum of `data`, of shape `shape`, along axis d: with
      k = o * inner + i it is Σ_j data[(o * n + j) * inner + i], where n is the
      extent of the axis and outer and inner count the elements before and
      after it. */
  function SumAt(data: seq<real>, shape: seq<int>, d: nat, k: int): real
    requires NonNegative(shape) && |data| == Prod(shape) && d < |shape|
  {
    var outer, n, inner := Prod(shape[..d]), shape[d], Prod(shape[d + 1..]);
    ProdSplit(shape, d);
    ProdNonNegative(shape[..d]);
    ProdNonNegative(shape[d + 1..]);
    if 0 <= k < outer * inner then
      DivBelow(k, outer, inner);
      AxisSum(data, outer, n, inner, k / inner, k % inner, n)
    else 0.0
  }

  /** sum(axis): the given axis is summed away. Fails when the tensor has no
      such axis. */
  function SumAxis(t: Tensor<real>, axis: int): (r: Result<Tensor<real>>)
    requires t.Valid()
    ensures r.Ok? <==> -|t.shape| <= axis < |t.shape|
    ensures r.Ok? ==> var d := NormalizeAxis(axis, |t.shape|);
              r.value.Valid() && r.value.shape == t.shape[..d] + t.shape[d + 1..] &&
              forall k :: 0 <= k < |r.value.data| ==> r.value.data[k] == SumAt(t.data, t.shape, d, k)
  {
    if !(-|t.shape| <= axis < |t.shape|) then Err(ShapeMismatch)
    else
      var d := NormalizeAxis(axis, |t.shape|);
      ProdSplit(t.shape, d);
      ProdNonNegative(t.shape[..d]);
      ProdNonNegative(t.shape[d + 1..]);
      MulNonNegative(Prod(t.shape[..d]), Prod(t.shape[d + 1..]));
      var shape := t.shape[..d] + t.shape[d + 1..];
      Ok(Tensor(seq(Prod(shape), k requires 0 <= k < Prod(shape) => SumAt(t.data, t.shape, d, k)), shape))
  }

  /** TorchHelpers.NormalizeTensor and Normalization.NormalizeTensor with
      their defaults: the norm along the last axis keeps that axis, so it has
      the rank of the input, and `expand([-1, -1])` then accepts only a rank-2
      norm. Every other rank throws; a rank-2 tensor is divided by its norms,
      which are left to `normalizeTensor`. */
  function NormalizeTensor(t: Tensor<real>, normalizeTensor: Tensor<real> -> Tensor<real>): (r: Result<Tensor<real>>)
    ensures r.Ok? <==> |t.shape| == 2
    ensures r.Err? ==> r.error == ShapeMismatch
    ensures r.Ok? ==> r.value == normalizeTensor(t)
  {
    if |t.shape| == 2 then Ok(normalizeTensor(t)) else Err(ShapeMismatch)
  }
}
