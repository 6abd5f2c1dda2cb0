/** Shared vocabulary of the model: the exceptions the library can raise, a
    failure-compatible result type, tensor shapes and the few facts about
    integer multiplication and division that the index arithmetic needs. */
module Common {

  /** The exceptions of the library, as far as the modelled code raises them. */
  datatype Error =
    | NegativeBufferSize                              // `new long[n]` with n < 0 (OverflowException)
    | NegativeDimension                               // a schema dimension below zero
    | SequenceTooLong(length: int, maximum: int)      // ArgumentException on maxSequenceLength
    | ShapeMismatch                                   // a Torch tensor whose shape does not fit its data
    | IndexOutOfRange                                 // IndexOutOfRangeException on a plain array or list

  datatype Result<+T> = Ok(value: T) | Err(error: Error) {
    predicate IsFailure() { Err? }

    function PropagateFailure<U>(): Result<U>
      requires Err?
    {
      Err(error)
    }

    function Extract(): T
      requires Ok?
    {
      value
    }
  }

  /** Every extent of a shape is a valid array length. */
  predicate NonNegative(dims: seq<int>) {
    forall i :: 0 <= i < |dims| ==> dims[i] >= 0
  }

  /** Number of elements of a tensor with the given shape (1 for a scalar). */
  function Prod(dims: seq<int>): int {
    if |dims| == 0 then 1 else dims[0] * Prod(dims[1..])
  }

  lemma {:induction false} ProdNonNegative(dims: seq<int>)
    requires NonNegative(dims)
    ensures Prod(dims) >= 0
  {
    if |dims| > 0 {
      ProdNonNegative(dims[1..]);
      MulNonNegative(dims[0], Prod(dims[1..]));
    }
  }

  /** Appending an axis multiplies the element count by its extent. */
  lemma {:induction false} ProdAppend(dims: seq<int>, x: int)
    ensures Prod(dims + [x]) == Prod(dims) * x
  {
    if |dims| == 0 {
      assert dims + [x] == [x];
    } else {
      assert (dims + [x])[1..] == dims[1..] + [x];
      ProdAppend(dims[1..], x);
      MulAssoc(dims[0], Prod(dims[1..]), x);
    }
  }

  /** Splitting off the first two axes: `Prod([a, b] + rest) == a * (b * Prod(rest))`. */
  lemma ProdFirstTwo(dims: seq<int>)
    requires |dims| >= 2
    ensures Prod(dims) == dims[0] * (dims[1] * Prod(dims[2..]))
  {
    assert dims[1..][1..] == dims[2..];
  }

  lemma ProdTwo(a: int, b: int)
    ensures Prod([a, b]) == a * b
  {
    assert [a, b][1..] == [b];
    assert [b][1..] == [];
    assert Prod([b]) == b * 1;
  }

  lemma ProdThree(a: int, b: int, c: int)
    ensures Prod([a, b, c]) == a * b * c
  {
    assert [a, b, c][1..] == [b, c];
    ProdTwo(b, c);
    MulAssoc(a, b, c);
  }

  lemma MulNonNegative(a: int, b: int)
    requires a >= 0 && b >= 0
    ensures a * b >= 0
  {
  }

  lemma MulAssoc(a: int, b: int, c: int)
    ensures a * (b * c) == a * b * c
  {
  }

  /** Multiplication by a non-negative factor is monotonic. */
  lemma {:induction false} MulLeft(a: int, b: int, c: nat)
    requires a <= b
    ensures a * c <= b * c
  {
    if c > 0 {
      MulLeft(a, b, c - 1);
      assert a * c == a * (c - 1) + a;
      assert b * c == b * (c - 1) + b;
    }
  }

  /** The flat index of coordinate (o, j, i) in a row-major [outer, n, inner]
      tensor lies inside the tensor. */
  lemma IndexInRange(outer: nat, n: nat, inner: nat, o: nat, j: nat, i: nat)
    requires o < outer && j < n && i < inner
    ensures 0 <= (o * n + j) * inner + i < outer * (n * inner)
  {
    MulLeft(o + 1, outer, n);
    assert o * n + j + 1 <= outer * n;
    MulLeft(o * n + j + 1, outer * n, inner);
    MulAssoc(outer, n, inner);
    MulNonNegative(o, n);
    MulNonNegative(o * n + j, inner);
  }

  /** The flat index of coordinate (o, j) in a row-major [outer, n] matrix
      lies inside the matrix. */
  lemma RowIndexInRange(outer: nat, n: nat, o: nat, j: nat)
    requires o < outer && j < n
    ensures 0 <= o * n + j < outer * n
  {
    MulLeft(o + 1, outer, n);
    MulNonNegative(o, n);
  }

  /** Euclidean division recovers the quotient and remainder it was built from. */
  lemma DivModOf(q: int, d: int, r: int)
    requires d > 0 && 0 <= r < d
    ensures (q * d + r) / d == q && (q * d + r) % d == r
  {
    var x := q * d + r;
    var e := q - x / d;
    assert x == d * (x / d) + x % d;
    assert d * e == x % d - r by {
      assert d * e == d * q - d * (x / d);
    }
    if e >= 1 {
      MulLeft(1, e, d);
      assert false;
    } else if e <= -1 {
      MulLeft(e, -1, d);
      assert false;
    }
  }

  /** A flat index below `a * d` has a quotient by `d` below `a`. */
  lemma DivBelow(k: int, a: int, d: int)
    requires d > 0 && 0 <= k < a * d
    ensures 0 <= k / d < a
  {
    assert k == d * (k / d) + k % d;
    if k / d >= a {
      MulLeft(a, k / d, d);
      assert false;
    }
  }
}
