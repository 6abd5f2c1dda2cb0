/** Pooling.MeanPooling, the older copy of the mean pooling used by the
    original MiniLM model: it sums over the axis list ONE = [1]. */
module Pooling {
  import opened Common
  import opened Tensors
  import PoolingHelpers

  /** The axis list passed to sum: the single axis 1. */
  const ONE: seq<int> := [1]

  /** Mean pooling with the sums taken over the axes listed in ONE. */
  function MeanPooling(tokenEmbeddings: seq<real>, attentionMask: seq<int>,
                       attentionMaskDimensions: seq<int>, tokenEmbeddingsDimensions: seq<int>): (r: Result<Tensor<real>>)
    ensures r.Ok? <==> PoolingHelpers.ShapesAgree(tokenEmbeddings, attentionMask, attentionMaskDimensions, tokenEmbeddingsDimensions)
    ensures r.Ok? ==> (r.value.Valid() &&
              r.value.shape == [tokenEmbeddingsDimensions[0]] + tokenEmbeddingsDimensions[2..])
  {
    PoolingHelpers.MaskExpandable(attentionMaskDimensions, tokenEmbeddingsDimensions);
    var tokenEmbeddingsTensor :- FromArray(tokenEmbeddings, tokenEmbeddingsDimensions);
    var maskTensor :- FromArray(attentionMask, attentionMaskDimensions);
    var expanded :- ExpandLast(UnsqueezeLast(maskTensor), tokenEmbeddingsTensor.shape);
    var attentionMaskExpanded := ToFloat32(expanded);
    var sumEmbeddings :- SumAxis(Mul(tokenEmbeddingsTensor, attentionMaskExpanded), ONE[0]);
    // Cannot fail: the mask has the shape that the first sum accepted.
    var summedMask := SumAxis(attentionMaskExpanded, ONE[0]).value;
    var sumMask := ClampAll(summedMask, MaskSumFloor, FloatMax);
    Ok(Div(sumEmbeddings, sumMask))
  }

  /** Both copies of the mean pooling compute the same tensor and fail on the
      same inputs. */
  lemma SameAsPoolingHelpers(tokenEmbeddings: seq<real>, attentionMask: seq<int>,
                             attentionMaskDimensions: seq<int>, tokenEmbeddingsDimensions: seq<int>)
    ensures MeanPooling(tokenEmbeddings, attentionMask, attentionMaskDimensions, tokenEmbeddingsDimensions) ==
            PoolingHelpers.MeanPooling(tokenEmbeddings, attentionMask, attentionMaskDimensions, tokenEmbeddingsDimensions)
  {
  }
}
