/** SimilarityHelpers.DotProduct: an accumulator loop over the first array. */
module SimilarityHelpers {
  import opened Common

  /** Σ_{i < n} x[i] * y[i], accumulated from i = 0 upwards. */
  function Dot(x: seq<real>, y: seq<real>, n: nat): real
    requires n <= |x| && n <= |y|
  {
    if n == 0 then 0.0 else Dot(x, y, n - 1) + x[n - 1] * y[n - 1]
  }

  /** DotProduct(array1, array2), with the arrays named `first` and `second`
      (`array2` is a type name in Dafny). The loop runs over first.Length
      only: it yields the dot product of the first first.Length pairs when
      `second` is at least as long, and stops with an
      IndexOutOfRangeException otherwise. Neither array is written. */
  method DotProduct(first: array<real>, second: array<real>) returns (r: Result<real>)
    ensures r.Ok? <==> first.Length <= second.Length
    ensures r.Ok? ==> r.value == Dot(first[..], second[..], first.Length)
    ensures r.Err? ==> r.error == IndexOutOfRange
    ensures first.Length == 0 ==> r == Ok(0.0)
  {
    var result := 0.0;
    for i := 0 to first.Length
      invariant i <= second.Length
      invariant result == Dot(first[..], second[..], i)
    {
      if i >= second.Length {
        return Err(IndexOutOfRange);
      }
      result := result + first[i] * second[i];
    }
    return Ok(result);
  }

  /** Swapping the arguments does not change the dot product over the reals. */
  lemma {:induction false} DotSymmetric(x: seq<real>, y: seq<real>, n: nat)
    requires n <= |x| && n <= |y|
    ensures Dot(x, y, n) == Dot(y, x, n)
  {
    if n > 0 {
      DotSymmetric(x, y, n - 1);
    }
  }

  /** Elements beyond the first n of either array do not matter. */
  lemma {:induction false} DotIgnoresTail(x: seq<real>, y: seq<real>, x': seq<real>, y': seq<real>, n: nat)
    requires n <= |x| && n <= |y| && n <= |x'| && n <= |y'|
    requires x[..n] == x'[..n] && y[..n] == y'[..n]
    ensures Dot(x, y, n) == Dot(x', y', n)
  {
    if n > 0 {
      assert x[..n - 1] == x[..n][..n - 1] && x'[..n - 1] == x'[..n][..n - 1];
      assert y[..n - 1] == y[..n][..n - 1] && y'[..n - 1] == y'[..n][..n - 1];
      assert x[n - 1] == x[..n][n - 1] && x'[n - 1] == x'[..n][n - 1];
      assert y[n - 1] == y[..n][n - 1] && y'[n - 1] == y'[..n][n - 1];
      DotIgnoresTail(x, y, x', y', n - 1);
    }
  }
}
