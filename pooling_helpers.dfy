/** PoolingHelpers.MeanPooling: the mean of the token embeddings of each
    sentence, weighted by its attention mask, written with Torch tensor
    operations. */
module PoolingHelpers {
  import opened Common
  import opened Tensors

  /** The shapes under which every tensor operation of the pooling succeeds:
      both buffers match their shapes, the embeddings have at least two axes
      and the mask shape is the embedding shape without its last axis. */
  predicate ShapesAgree(tokenEmbeddings: seq<real>, attentionMask: seq<int>,
                        attentionMaskDimensions: seq<int>, tokenEmbeddingsDimensions: seq<int>)
  {
    NonNegative(tokenEmbeddingsDimensions) && |tokenEmbeddings| == Prod(tokenEmbeddingsDimensions) &&
    |attentionMask| == Prod(attentionMaskDimensions) &&
    |tokenEmbeddingsDimensions| >= 2 && |tokenEmbeddingsDimensions| == |attentionMaskDimensions| + 1 &&
    attentionMaskDimensions == tokenEmbeddingsDimensions[..|attentionMaskDimensions|]
  }

  /** The pooled tensor: (embeddings * mask).sum(1) / mask.sum(1).clamp(1e-9, float.MaxValue),
      the mask unsqueezed and expanded over the hidden axis. Its shape is the
      embedding shape without axis 1. */
  function MeanPooling(tokenEmbeddings: seq<real>, attentionMask: seq<int>,
                       attentionMaskDimensions: seq<int>, tokenEmbeddingsDimensions: seq<int>): (r: Result<Tensor<real>>)
    ensures r.Ok? <==> ShapesAgree(tokenEmbeddings, attentionMask, attentionMaskDimensions, tokenEmbeddingsDimensions)
    ensures r.Ok? ==> (r.value.Valid() &&
              r.value.shape == [tokenEmbeddingsDimensions[0]] + tokenEmbeddingsDimensions[2..])
  {
    MaskExpandable(attentionMaskDimensions, tokenEmbeddingsDimensions);
    var tokenEmbeddingsTensor :- FromArray(tokenEmbeddings, tokenEmbeddingsDimensions);
    var maskTensor :- FromArray(attentionMask, attentionMaskDimensions);
    var expanded :- ExpandLast(UnsqueezeLast(maskTensor), tokenEmbeddingsTensor.shape);
    var attentionMaskExpanded := ToFloat32(expanded);
    var sumEmbeddings :- SumAxis(Mul(tokenEmbeddingsTensor, attentionMaskExpanded), 1);
    // Cannot fail: the mask has the shape that the first sum accepted.
    var summedMask := SumAxis(attentionMaskExpanded, 1).value;
    var sumMask := ClampAll(summedMask, MaskSumFloor, FloatMax);
    Ok(Div(sumEmbeddings, sumMask))
  }

  /** The unsqueezed mask expands to the embedding shape exactly when the mask
      shape is the embedding shape without its last axis. */
  lemma MaskExpandable(maskDims: seq<int>, embDims: seq<int>)
    ensures CanExpandLast(maskDims + [1], embDims) <==>
              |embDims| == |maskDims| + 1 && NonNegative(embDims) && maskDims == embDims[..|maskDims|]
  {
    if |embDims| == |maskDims| + 1 && (maskDims + [1] == embDims[..|maskDims|] + [1]) {
      assert (maskDims + [1])[..|maskDims|] == maskDims;
      assert (embDims[..|maskDims|] + [1])[..|maskDims|] == embDims[..|maskDims|];
    }
  }

  /** Embedding component h of token j of sentence b in a row-major
      [batch, S, H] buffer (0 outside the buffer). */
  function EmbAt(emb: seq<real>, S: nat, H: nat, b: nat, j: nat, h: nat): real {
    var k := (b * S + j) * H + h;
    if k < |emb| then emb[k] else 0.0
  }

  /** Mask value of token j of sentence b in a row-major [batch, S] buffer
      (0 outside the buffer). */
  function MaskAt(mask: seq<int>, S: nat, b: nat, j: nat): int {
    var k := b * S + j;
    if k < |mask| then mask[k] else 0
  }

  /** Σ_{j < m} emb[b, j, h] * mask[b, j]: the masked sum of the first m tokens. */
  function MaskedSum(emb: seq<real>, mask: seq<int>, S: nat, H: nat, b: nat, h: nat, m: nat): real {
    if m == 0 then 0.0
    else MaskedSum(emb, mask, S, H, b, h, m - 1) + EmbAt(emb, S, H, b, m - 1, h) * MaskAt(mask, S, b, m - 1) as real
  }

  /** Σ_{j < m} mask[b, j]: the number of attended tokens among the first m
      when the mask is 0/1. */
  function MaskCount(mask: seq<int>, S: nat, b: nat, m: nat): real {
    if m == 0 then 0.0 else MaskCount(mask, S, b, m - 1) + MaskAt(mask, S, b, m - 1) as real
  }

  /** Σ_{j < m} emb[b, j, h], with no mask. */
  function RowSum(emb: seq<real>, S: nat, H: nat, b: nat, h: nat, m: nat): real {
    if m == 0 then 0.0 else RowSum(emb, S, H, b, h, m - 1) + EmbAt(emb, S, H, b, m - 1, h)
  }

  /** The mean pooling of sentence b at hidden component h, as a formula. */
  function PooledValue(emb: seq<real>, mask: seq<int>, S: nat, H: nat, b: nat, h: nat): real {
    MaskedSum(emb, mask, S, H, b, h, S) / Clamp(MaskCount(mask, S, b, S), MaskSumFloor, FloatMax)
  }

  lemma ProdOfThree(B: int, S: int, H: int)
    ensures Prod([B, S, H]) == B * (S * H)
  {
    ProdThree(B, S, H);
    MulAssoc(B, S, H);
  }

  /** The sum along axis 1 of a [B, S, H] tensor, at row b and column h. */
  lemma SumAtMiddle(data: seq<real>, B: nat, S: nat, H: nat, b: nat, h: nat)
    requires |data| == B * (S * H) && b < B && h < H
    ensures Prod([B, S, H]) == |data|
    ensures SumAt(data, [B, S, H], 1, b * H + h) == AxisSum(data, B, S, H, b, h, S)
  {
    var shape := [B, S, H];
    ProdOfThree(B, S, H);
    assert shape[..1] == [B] && shape[2..] == [H];
    assert Prod([B]) == B * Prod([]);
    assert Prod([H]) == H * Prod([]);
    RowIndexInRange(B, H, b, h);
    DivModOf(b, H, h);
  }

  /** The axis sum of the product tensor is the masked sum. */
  lemma {:induction false} AxisSumOfProduct(product: seq<real>, emb: seq<real>, mask: seq<int>,
                                            B: nat, S: nat, H: nat, b: nat, h: nat, m: nat)
    requires |product| == |emb| == B * (S * H) && |mask| == B * S && b < B && h < H && m <= S
    requires forall k :: 0 <= k < |product| ==> H > 0 && k / H < |mask| && product[k] == emb[k] * mask[k / H] as real
    ensures AxisSum(product, B, S, H, b, h, m) == MaskedSum(emb, mask, S, H, b, h, m)
  {
    if m > 0 {
      AxisSumOfProduct(product, emb, mask, B, S, H, b, h, m - 1);
      var k := (b * S + m - 1) * H + h;
      IndexInRange(B, S, H, b, m - 1, h);
      DivModOf(b * S + m - 1, H, h);
      RowIndexInRange(B, S, b, m - 1);
      assert product[k] == EmbAt(emb, S, H, b, m - 1, h) * MaskAt(mask, S, b, m - 1) as real;
    }
  }

  /** The axis sum of the expanded mask is the mask count. */
  lemma {:induction false} AxisSumOfMask(expanded: seq<real>, mask: seq<int>,
                                         B: nat, S: nat, H: nat, b: nat, h: nat, m: nat)
    requires |expanded| == B * (S * H) && |mask| == B * S && b < B && h < H && m <= S
    requires forall k :: 0 <= k < |expanded| ==> H > 0 && k / H < |mask| && expanded[k] == mask[k / H] as real
    ensures AxisSum(expanded, B, S, H, b, h, m) == MaskCount(mask, S, b, m)
  {
    if m > 0 {
      AxisSumOfMask(expanded, mask, B, S, H, b, h, m - 1);
      var k := (b * S + m - 1) * H + h;
      IndexInRange(B, S, H, b, m - 1, h);
      DivModOf(b * S + m - 1, H, h);
      RowIndexInRange(B, S, b, m - 1);
      assert expanded[k] == MaskAt(mask, S, b, m - 1) as real;
    }
  }

  /** For [B, S] masks and [B, S, H] embeddings the pooling succeeds and
      yields a [B, H] tensor whose element (b, h) is the masked sum of
      column h of sentence b over the clamped number of attended tokens. */
  lemma MeanPoolingAt(emb: seq<real>, mask: seq<int>, B: nat, S: nat, H: nat, b: nat, h: nat)
    requires |emb| == B * (S * H) && |mask| == B * S && b < B && h < H
    ensures var r := MeanPooling(emb, mask, [B, S], [B, S, H]);
              r.Ok? && r.value.shape == [B, H] && 0 <= b * H + h < |r.value.data| &&
              r.value.data[b * H + h] == PooledValue(emb, mask, S, H, b, h)
  {
    var dims := [B, S, H];
    ProdOfThree(B, S, H);
    ProdTwo(B, S);
    ProdTwo(B, H);
    assert [B, S, H][..2] == [B, S];
    assert ShapesAgree(emb, mask, [B, S], dims);
    var r := MeanPooling(emb, mask, [B, S], dims);
    var embT := Tensor(emb, dims);
    var expanded := ExpandLast(UnsqueezeLast(Tensor(mask, [B, S])), dims).value;
    var maskF := ToFloat32(expanded);
    var product := Mul(embT, maskF);
    var sumE := SumAxis(product, 1).value;
    var sumM := SumAxis(maskF, 1).value;
    var den := ClampAll(sumM, MaskSumFloor, FloatMax);
    assert r == Ok(Div(sumE, den));
    assert dims[..1] + dims[2..] == [B, H];
    RowIndexInRange(B, H, b, h);
    var k := b * H + h;
    SumAtMiddle(product.data, B, S, H, b, h);
    AxisSumOfProduct(product.data, emb, mask, B, S, H, b, h, S);
    SumAtMiddle(maskF.data, B, S, H, b, h);
    AxisSumOfMask(maskF.data, mask, B, S, H, b, h, S);
  }

  /** Tokens whose mask is 0 (padding) do not contribute to the masked sum. */
  lemma {:induction false} MaskedSumIgnoresPadding(emb1: seq<real>, emb2: seq<real>, mask: seq<int>,
                                                   S: nat, H: nat, b: nat, h: nat, m: nat)
    requires forall j :: 0 <= j < m && MaskAt(mask, S, b, j) != 0 ==> EmbAt(emb1, S, H, b, j, h) == EmbAt(emb2, S, H, b, j, h)
    ensures MaskedSum(emb1, mask, S, H, b, h, m) == MaskedSum(emb2, mask, S, H, b, h, m)
  {
    if m > 0 {
      MaskedSumIgnoresPadding(emb1, emb2, mask, S, H, b, h, m - 1);
    }
  }

  /** The pooled value of a sentence depends only on the embeddings of its
      attended tokens. */
  lemma PaddingIgnored(emb1: seq<real>, emb2: seq<real>, mask: seq<int>, S: nat, H: nat, b: nat, h: nat)
    requires forall j :: 0 <= j < S && MaskAt(mask, S, b, j) != 0 ==> EmbAt(emb1, S, H, b, j, h) == EmbAt(emb2, S, H, b, j, h)
    ensures PooledValue(emb1, mask, S, H, b, h) == PooledValue(emb2, mask, S, H, b, h)
  {
    MaskedSumIgnoresPadding(emb1, emb2, mask, S, H, b, h, S);
  }

  /** With every token attended the masked sum is the plain sum and the mask
      count is the number of tokens. */
  lemma {:induction false} FullMaskSums(emb: seq<real>, mask: seq<int>, S: nat, H: nat, b: nat, h: nat, m: nat)
    requires forall j :: 0 <= j < m ==> MaskAt(mask, S, b, j) == 1
    ensures MaskedSum(emb, mask, S, H, b, h, m) == RowSum(emb, S, H, b, h, m)
    ensures MaskCount(mask, S, b, m) == m as real
  {
    if m > 0 {
      FullMaskSums(emb, mask, S, H, b, h, m - 1);
    }
  }

  /** A sentence whose tokens are all attended pools to the arithmetic mean
      of its token embeddings. */
  lemma FullMaskIsMean(emb: seq<real>, mask: seq<int>, S: nat, H: nat, b: nat, h: nat)
    requires S >= 1 && S as real <= FloatMax
    requires forall j :: 0 <= j < S ==> MaskAt(mask, S, b, j) == 1
    ensures PooledValue(emb, mask, S, H, b, h) == RowSum(emb, S, H, b, h, S) / S as real
  {
    FullMaskSums(emb, mask, S, H, b, h, S);
  }

  /** With no token attended both sums are zero. */
  lemma {:induction false} EmptyMaskSums(emb: seq<real>, mask: seq<int>, S: nat, H: nat, b: nat, h: nat, m: nat)
    requires forall j :: 0 <= j < m ==> MaskAt(mask, S, b, j) == 0
    ensures MaskedSum(emb, mask, S, H, b, h, m) == 0.0 && MaskCount(mask, S, b, m) == 0.0
  {
    if m > 0 {
      EmptyMaskSums(emb, mask, S, H, b, h, m - 1);
    }
  }

  /** A sentence with no attended token pools to zero: the clamp keeps the
      denominator at 1e-9 instead of dividing by zero. */
  lemma EmptyMaskIsZero(emb: seq<real>, mask: seq<int>, S: nat, H: nat, b: nat, h: nat)
    requires forall j :: 0 <= j < S ==> MaskAt(mask, S, b, j) == 0
    ensures PooledValue(emb, mask, S, H, b, h) == 0.0
  {
    EmptyMaskSums(emb, mask, S, H, b, h, S);
  }

  predicate BinaryMask(mask: seq<int>, S: nat, b: nat) {
    forall j :: 0 <= j < S ==> MaskAt(mask, S, b, j) == 0 || MaskAt(mask, S, b, j) == 1
  }

  /** With a 0/1 mask the masked sum lies between lo and hi times the count
      when every attended embedding lies between lo and hi. */
  lemma {:induction false} MaskedSumBounds(emb: seq<real>, mask: seq<int>, S: nat, H: nat, b: nat, h: nat,
                                           m: nat, lo: real, hi: real)
    requires m <= S && BinaryMask(mask, S, b)
    requires forall j :: 0 <= j < S && MaskAt(mask, S, b, j) == 1 ==> lo <= EmbAt(emb, S, H, b, j, h) <= hi
    ensures lo * MaskCount(mask, S, b, m) <= MaskedSum(emb, mask, S, H, b, h, m) <= hi * MaskCount(mask, S, b, m)
    ensures 0.0 <= MaskCount(mask, S, b, m) <= m as real
  {
    if m > 0 {
      MaskedSumBounds(emb, mask, S, H, b, h, m - 1, lo, hi);
    }
  }

  /** With a 0/1 mask and at least one attended token, the pooled value is a
      mean of attended embeddings: it lies between their bounds. */
  lemma PooledWithinBounds(emb: seq<real>, mask: seq<int>, S: nat, H: nat, b: nat, h: nat, lo: real, hi: real)
    requires S as real <= FloatMax && BinaryMask(mask, S, b)
    requires exists j :: 0 <= j < S && MaskAt(mask, S, b, j) == 1
    requires forall j :: 0 <= j < S && MaskAt(mask, S, b, j) == 1 ==> lo <= EmbAt(emb, S, H, b, j, h) <= hi
    ensures lo <= PooledValue(emb, mask, S, H, b, h) <= hi
  {
    MaskedSumBounds(emb, mask, S, H, b, h, S, lo, hi);
    var j :| 0 <= j < S && MaskAt(mask, S, b, j) == 1;
    AttendedCounts(mask, S, b, S, j);
    var count := MaskCount(mask, S, b, S);
    assert Clamp(count, MaskSumFloor, FloatMax) == count;
    QuotientBounds(MaskedSum(emb, mask, S, H, b, h, S), count, lo, hi);
  }

  lemma QuotientBounds(x: real, c: real, lo: real, hi: real)
    requires c > 0.0 && lo * c <= x <= hi * c
    ensures lo <= x / c <= hi
  {
    assert x / c * c == x;
  }

  /** An attended token among the first m makes the mask count at least 1. */
  lemma {:induction false} AttendedCounts(mask: seq<int>, S: nat, b: nat, m: nat, j: nat)
    requires m <= S && BinaryMask(mask, S, b) && j < m && MaskAt(mask, S, b, j) == 1
    ensures MaskCount(mask, S, b, m) >= 1.0
  {
    if j < m - 1 {
      AttendedCounts(mask, S, b, m - 1, j);
    } else {
      EmptyOrMore(mask, S, b, m - 1);
    }
  }

  lemma {:induction false} EmptyOrMore(mask: seq<int>, S: nat, b: nat, m: nat)
    requires m <= S && BinaryMask(mask, S, b)
    ensures MaskCount(mask, S, b, m) >= 0.0
  {
    if m > 0 {
      EmptyOrMore(mask, S, b, m - 1);
    }
  }
}
