/** CastHelpers.ExpandToLong: widening an int buffer to a fresh long buffer,
    a SIMD-chunked main loop followed by a scalar loop over the remainder. */
module CastHelpers {
  import opened Common

  newtype int32 = x: int | -0x8000_0000 <= x < 0x8000_0000
  newtype int64 = x: int | -0x8000_0000_0000_0000 <= x < 0x8000_0000_0000_0000

  /** Vector<int>.Count is a power of two on every platform. */
  predicate IsPowerOfTwo(n: nat)
    decreases n
  {
    n == 1 || (n >= 2 && n % 2 == 0 && IsPowerOfTwo(n / 2))
  }

  /** `a & ~b` on the two's-complement bits of non-negative integers. */
  function BitAndNot(a: nat, b: nat): nat
    decreases a
  {
    if a == 0 then 0
    else 2 * BitAndNot(a / 2, b / 2) + (if a % 2 == 1 && b % 2 == 0 then 1 else 0)
  }

  /** Every value widened from 32 to 64 bits, in order. */
  function WidenAll(s: seq<int32>): (r: seq<int64>)
    ensures |r| == |s|
    ensures forall k :: 0 <= k < |s| ==> r[k] as int == s[k] as int
  {
    seq(|s|, k requires 0 <= k < |s| => s[k] as int64)
  }

  /** Vector.Widen(source, out low, out high): the low lanes of the int vector
      become the first long vector and the high lanes the second one. */
  function Widen(v: seq<int32>): (halves: (seq<int64>, seq<int64>))
    requires |v| % 2 == 0
    ensures |halves.0| == |halves.1| == |v| / 2
    ensures forall k :: 0 <= k < |v| / 2 ==> halves.0[k] as int == v[k] as int
    ensures forall k :: 0 <= k < |v| / 2 ==> halves.1[k] as int == v[|v| / 2 + k] as int
  {
    (WidenAll(v[..|v| / 2]), WidenAll(v[|v| / 2..]))
  }

  lemma {:induction false} AndNotZero(a: nat)
    ensures BitAndNot(a, 0) == a
  {
    if a > 0 {
      AndNotZero(a / 2);
    }
  }

  /** Halving both the value and the modulus: the remainder by 2v is twice the
      remainder of n / 2 by v, plus the bit that halving dropped. */
  lemma ModOfDouble(n: nat, v: nat)
    requires v > 0
    ensures n % (2 * v) == 2 * ((n / 2) % v) + n % 2
  {
    var m, b := n / 2, n % 2;
    var q, t := m / v, m % v;
    assert m == q * v + t;
    assert n == q * (2 * v) + (2 * t + b) by {
      assert n == 2 * m + b;
      assert 2 * (q * v) == q * (2 * v);
    }
    DivModOf(q, 2 * v, 2 * t + b);
  }

  /** `n - n % w` is the largest multiple of w that does not exceed n. */
  lemma LargestMultiple(n: nat, w: nat)
    requires w > 0
    ensures (n - n % w) % w == 0 && n - w < n - n % w <= n
  {
    assert n - n % w == (n / w) * w + 0;
    DivModOf(n / w, w, 0);
  }

  /** `length & ~(W - 1)` clears the low bits: for a power of two W it is the
      largest multiple of W that does not exceed `length`. */
  lemma LowBitsCleared(n: nat, w: nat)
    requires IsPowerOfTwo(w)
    ensures BitAndNot(n, w - 1) == n - n % w
    ensures (n - n % w) % w == 0 && n - w < n - n % w <= n
  {
    LargestMultiple(n, w);
    ClearedBits(n, w);
  }

  lemma {:induction false} ClearedBits(n: nat, w: nat)
    requires IsPowerOfTwo(w)
    ensures BitAndNot(n, w - 1) == n - n % w
    decreases w
  {
    if w == 1 {
      AndNotZero(n);
      assert n % 1 == 0;
    } else if n > 0 {
      assert w >= 2 && w % 2 == 0 && IsPowerOfTwo(w / 2);
      ClearedBits(n / 2, w / 2);
      AndNotOdd(n, w);
      HalvingStep(n, w, BitAndNot(n / 2, w / 2 - 1), BitAndNot(n, w - 1));
    } else {
      assert BitAndNot(0, w - 1) == 0;
      assert 0 % w == 0;
    }
  }

  /** The arithmetic of one halving step: twice n / 2 - (n / 2) % (w / 2) is
      n - n % w for an even w. */
  lemma HalvingStep(n: nat, w: nat, half: int, whole: int)
    requires w >= 2 && w % 2 == 0
    requires half == n / 2 - (n / 2) % (w / 2) && whole == 2 * half
    ensures whole == n - n % w
  {
    var v := w / 2;
    assert w == 2 * v;
    ModOfDouble(n, v);
    var m, b, r, nw := n / 2, n % 2, (n / 2) % v, n % w;
    assert nw == 2 * r + b;
    assert n == 2 * m + b;
  }

  /** Clearing the bits of an odd mask w - 1 drops the lowest bit of n. */
  lemma AndNotOdd(n: nat, w: nat)
    requires n > 0 && w >= 2 && w % 2 == 0
    ensures BitAndNot(n, w - 1) == 2 * BitAndNot(n / 2, w / 2 - 1)
  {
    assert (w - 1) / 2 == w / 2 - 1 && (w - 1) % 2 == 1;
  }

  /** Two chunk offsets that are multiples of W: the next chunk fits below the end. */
  lemma ChunkFits(i: nat, p: nat, w: nat)
    requires w > 0 && i % w == 0 && p % w == 0 && i < p
    ensures i + w <= p && (i + w) % w == 0
  {
    var a, b := i / w, p / w;
    assert i == a * w && p == b * w;
    if a >= b {
      MulLeft(b, a, w);
      assert false;
    }
    MulLeft(a + 1, b, w);
    assert (a + 1) * w == a * w + w;
    DivModOf(a + 1, w, 0);
  }

  /** Vector<long>.CopyTo(span): writes the lanes into `destination` from `offset` on. */
  method CopyTo(source: seq<int64>, destination: array<int64>, offset: nat)
    requires offset + |source| <= destination.Length
    modifies destination
    ensures forall k :: offset <= k < offset + |source| ==> destination[k] == source[k - offset]
    ensures forall k :: 0 <= k < destination.Length && !(offset <= k < offset + |source|) ==>
              destination[k] == old(destination[k])
  {
    forall k | 0 <= k < |source| {
      destination[offset + k] := source[k];
    }
  }

  /** One iteration of the chunk loop: the `2 * half` ints from `input[from..]`
      are widened with Vector.Widen, and the two long vectors are copied to
      `result[at..at + half]` (named `upper` in the library) and
      `result[at + half..at + 2 * half]` (named `lower`). */
  method WidenChunk(input: array<int32>, from: nat, result: array<int64>, at: nat, half: nat)
    requires from + 2 * half <= input.Length && at + 2 * half <= result.Length
    modifies result
    ensures forall k :: at <= k < at + 2 * half ==> result[k] as int == input[from + (k - at)] as int
    ensures forall k :: 0 <= k < result.Length && !(at <= k < at + 2 * half) ==> result[k] == old(result[k])
  {
    var sourceSpan := input[from..from + 2 * half];
    var (upper, lower) := Widen(sourceSpan);
    CopyTo(upper, result, at);
    CopyTo(lower, result, at + half);
    forall k | at <= k < at + 2 * half
      ensures result[k] as int == input[from + (k - at)] as int
    {
      var lane := k - at;
      assert sourceSpan[lane] == input[from + lane];
      if lane < half {
        assert result[at + lane] == upper[lane];
      } else {
        assert result[at + half + (lane - half)] == lower[lane - half];
      }
    }
  }

  /** ExpandToLong(Span<int>): the span is `input[start..start + length]`;
      `intVectorWidth` and `longVectorWidth` are Vector<int>.Count and
      Vector<long>.Count of the platform. */
  method ExpandSpanToLong(input: array<int32>, start: nat, length: nat, intVectorWidth: nat, longVectorWidth: nat)
    returns (result: array<int64>)
    requires start + length <= input.Length
    requires IsPowerOfTwo(intVectorWidth) && intVectorWidth == 2 * longVectorWidth
    ensures fresh(result) && result.Length == length
    ensures result[..] == WidenAll(input[start..start + length])
  {
    result := new int64[length];
    var pow2Length := BitAndNot(length, intVectorWidth - 1);
    LowBitsCleared(length, intVectorWidth);
    var i := 0;
    while i < pow2Length
      invariant 0 <= i <= pow2Length && i % intVectorWidth == 0
      invariant forall k :: 0 <= k < i ==> result[k] as int == input[start + k] as int
      decreases pow2Length - i
    {
      ChunkFits(i, pow2Length, intVectorWidth);
      WidenChunk(input, start + i, result, i, longVectorWidth);
      i := i + intVectorWidth;
    }

    var remainder := length - pow2Length;
    if remainder != 0 {
      for j := 0 to remainder
        invariant forall k :: 0 <= k < pow2Length + j ==> result[k] as int == input[start + k] as int
      {
        result[pow2Length + j] := input[start + pow2Length + j] as int64;
      }
    }
    assert forall k :: 0 <= k < length ==> result[k] == WidenAll(input[start..start + length])[k];
  }

  /** ExpandToLong(int[]): the whole array as a span. */
  method ExpandToLong(input: array<int32>, intVectorWidth: nat, longVectorWidth: nat)
    returns (result: array<int64>)
    requires IsPowerOfTwo(intVectorWidth) && intVectorWidth == 2 * longVectorWidth
    ensures fresh(result) && result.Length == input.Length
    ensures result[..] == WidenAll(input[..])
  {
    result := ExpandSpanToLong(input, 0, input.Length, intVectorWidth, longVectorWidth);
    assert input[0..input.Length] == input[..];
  }
}
