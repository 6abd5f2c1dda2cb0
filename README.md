# OnnxEmbeddings in Dafny

OnnxEmbeddings wraps ONNX sentence-embedding models (all-MiniLM-L6-v2 and
gte-large-en-v1.5) for .NET. It tokenizes a batch of sentences into
`[batch, sequence]` buffers, runs the model, and reduces the model's
output to one vector per sentence. MiniLM uses masked mean pooling over the
tokens; GTE uses the hidden state of the first token. The vectors can then be
L2-normalized. Around that sit a few helpers:

- a SIMD widening copy from `int` to `long`;
- a dot product;
- a percentage formatter that truncates instead of rounding.

This project models that bookkeeping and those reductions, and proves
properties of them. Floats are real numbers. The ONNX engine, the tokenizer
and the normalization are opaque, so their results are parameters.

Modules, one per source file:

- `Common`: the exceptions as an `Error` datatype, a `Result` type, `Prod` of a shape, and index arithmetic.
- `Tensors`: the Torch operations that mean pooling is written with, on row-major tensors, and the shape check of `NormalizeTensor`.
- `CastHelpers`: `ExpandToLong`, as an imperative chunk loop plus a remainder loop over arrays.
- `PoolingHelpers` and `Pooling`: the two copies of mean pooling, and the pooling formula.
- `SimilarityHelpers`: `DotProduct`, as an accumulator loop.
- `TextHelpers`: `NormalizedToPercentageNonRounding`.
- `Tokenizer`: the buffers that `BertTokenizer.Encode` fills.
- `GTELargeENV1_5`, `HuggingFaceMiniLML6V2` and `MiniLML6V2`: the three model façades. Each has `CreateInput`, the dims arrays and the output selection as a specification function `Embed`, which follows the code as written. Its `GenerateEmbeddings` method is proved equal to that function. The two HuggingFace-era façades also check the maximum sequence length; `Models/MiniLML6V2.cs` has no such check. The two MiniLM façades also have `EmbedIntended`, the same selection with the wrong dims corrected (see Findings).
- `SentenceEmbedder`: the input structs, the named-tensor lists, and the embedder class around a session.

## Model

| member | source | states |
|---|---|---|
| CastHelpers.Widen | OnnxEmbeddings/Helpers/CastHelpers.cs:35 | Vector.Widen yields two vectors of half the width. The first holds the low lanes, the second the high lanes, with every value preserved. |
| CastHelpers.LowBitsCleared | OnnxEmbeddings/Helpers/CastHelpers.cs:25 | For a power-of-two width W, `length & ~(W - 1)` equals `length - length % W`. That is the largest multiple of W that does not exceed `length`. |
| CastHelpers.ChunkFits | OnnxEmbeddings/Helpers/CastHelpers.cs:27-31 | A chunk that starts at a multiple of W below `pow2Length` ends at or below `pow2Length`. The next start is again a multiple of W. |
| CastHelpers.CopyTo | OnnxEmbeddings/Helpers/CastHelpers.cs:37-38 | Vector.CopyTo writes the lanes into the destination from the offset on. Every other slot is unchanged. |
| CastHelpers.WidenChunk | OnnxEmbeddings/Helpers/CastHelpers.cs:29-38 | One chunk iteration widens `input[i..i+W]` into `result[i..i+W]`: the first half from the low lanes, the second from the high lanes. The rest of `result` is untouched. |
| CastHelpers.ExpandSpanToLong | OnnxEmbeddings/Helpers/CastHelpers.cs:13-55 | The result is a fresh array of the span's length, and equals the span widened elementwise. The chunk loop covers `[0, pow2Length)` and the remainder loop covers `[pow2Length, length)`. The input is not written, and an empty span gives an empty array. |
| CastHelpers.ExpandToLong | OnnxEmbeddings/Helpers/CastHelpers.cs:8-11 | The array overload gives a fresh array that equals the whole input widened. |
| Tensors.FromArray | OnnxEmbeddings/Helpers/PoolingHelpers.cs:11 | `Torch.tensor(array, dims)` succeeds exactly when the dims are non-negative and their product is the buffer length. The tensor keeps the buffer and the dims. |
| Tensors.UnsqueezeLast | OnnxEmbeddings/Helpers/PoolingHelpers.cs:13-15 | `unsqueeze(-1)` appends an axis of extent 1 and keeps the elements. |
| Tensors.ExpandLast | OnnxEmbeddings/Helpers/PoolingHelpers.cs:16 | `expand` from a trailing 1 to the target shape succeeds exactly when the other extents agree. Element k is source element k / h, so each value is repeated along the last axis. |
| Tensors.ExpandedCount | OnnxEmbeddings/Helpers/PoolingHelpers.cs:16 | Expanding the last axis from 1 to h multiplies the element count by h. |
| Tensors.ToFloat32 | OnnxEmbeddings/Helpers/PoolingHelpers.cs:17 | `.to(float32)` keeps the shape and converts every element. |
| Tensors.Mul | OnnxEmbeddings/Helpers/PoolingHelpers.cs:19 | The elementwise product of two tensors of one shape. |
| Tensors.SumAxis | OnnxEmbeddings/Helpers/PoolingHelpers.cs:19-22 | `sum(axis)` succeeds exactly for an axis in `[-rank, rank)` and removes that axis from the shape. Element o·inner+i is the sum over the axis at outer index o and inner index i. |
| Tensors.ClampAll | OnnxEmbeddings/Helpers/PoolingHelpers.cs:21-23 | `clamp(1e-9, float.MaxValue)` puts every element within the bounds, and changes only the elements outside them. |
| Tensors.Div | OnnxEmbeddings/Helpers/PoolingHelpers.cs:25 | The elementwise quotient of two tensors of one shape, where no divisor is zero. |
| Tensors.NormalizeTensor | OnnxEmbeddings/Helpers/TorchHelpers.cs:8-24 | With the defaults (last axis, keepdim), the norm keeps the input's rank and `expand([-1, -1])` accepts only rank 2. So normalization succeeds exactly for a rank-2 tensor, with the value `normalizeTensor` gives it, and fails with a shape error for every other rank. Normalization.NormalizeTensor (Models/Normalization.cs:5-17) is the same code. |
| PoolingHelpers.MeanPooling | OnnxEmbeddings/Helpers/PoolingHelpers.cs:5-26 | Pooling succeeds exactly when both buffers match their dims and the mask dims are the embedding dims minus the last axis. The result has the embedding shape minus axis 1. |
| PoolingHelpers.MaskExpandable | OnnxEmbeddings/Helpers/PoolingHelpers.cs:13-17 | The unsqueezed mask expands to the embedding shape exactly when the mask shape is the embedding shape without its last axis. |
| PoolingHelpers.SumAtMiddle | OnnxEmbeddings/Helpers/PoolingHelpers.cs:19 | On a `[B, S, H]` tensor, element b·H+h of `sum(1)` is the sum over the S tokens at (b, h). |
| PoolingHelpers.AxisSumOfProduct | OnnxEmbeddings/Helpers/PoolingHelpers.cs:19 | The axis-1 sum of embeddings times the expanded mask is the masked sum Σ_s emb[b,s,h]·mask[b,s]. |
| PoolingHelpers.AxisSumOfMask | OnnxEmbeddings/Helpers/PoolingHelpers.cs:21-23 | The axis-1 sum of the expanded mask is Σ_s mask[b,s]. It does not depend on h, so every component of a row has the same denominator. |
| PoolingHelpers.MeanPoolingAt | OnnxEmbeddings/Helpers/PoolingHelpers.cs:11-25 | On `[B,S]` and `[B,S,H]` buffers, pooling succeeds with shape `[B,H]`. Element b·H+h equals Σ_s emb[b,s,h]·mask[b,s] / clamp(Σ_s mask[b,s], 1e-9, float.MaxValue). |
| PoolingHelpers.MaskedSumIgnoresPadding | OnnxEmbeddings/Helpers/PoolingHelpers.cs:19 | Two embedding buffers that agree where the mask is non-zero have the same masked sums. |
| PoolingHelpers.PaddingIgnored | OnnxEmbeddings/Helpers/PoolingHelpers.cs:19-25 | Changing an embedding at a masked-out position does not change the pooled value. |
| PoolingHelpers.FullMaskSums | OnnxEmbeddings/Helpers/PoolingHelpers.cs:19-23 | An all-ones mask row makes the masked sum the plain sum, and makes the mask count the number of tokens. |
| PoolingHelpers.FullMaskIsMean | OnnxEmbeddings/Helpers/PoolingHelpers.cs:19-25 | An all-ones mask row pools to the arithmetic mean over its S tokens, since the clamp does not act. |
| PoolingHelpers.EmptyMaskSums | OnnxEmbeddings/Helpers/PoolingHelpers.cs:19-23 | An all-zero mask row has masked sum 0 and mask count 0. |
| PoolingHelpers.EmptyMaskIsZero | OnnxEmbeddings/Helpers/PoolingHelpers.cs:21-25 | An all-zero mask row pools to 0. The clamp keeps the denominator at 1e-9, so there is no division by zero. |
| PoolingHelpers.MaskedSumBounds | OnnxEmbeddings/Helpers/PoolingHelpers.cs:19-23 | With a 0/1 mask, the masked sum lies between lo·count and hi·count when every attended embedding lies in [lo, hi]. |
| PoolingHelpers.AttendedCounts | OnnxEmbeddings/Helpers/PoolingHelpers.cs:21-23 | With a 0/1 mask, one attended token makes the mask count at least 1. |
| PoolingHelpers.EmptyOrMore | OnnxEmbeddings/Helpers/PoolingHelpers.cs:21-23 | With a 0/1 mask, the mask count is never negative. |
| PoolingHelpers.PooledWithinBounds | OnnxEmbeddings/Helpers/PoolingHelpers.cs:19-25 | With a 0/1 mask and at least one attended token, the pooled value lies within the bounds of the attended embeddings. |
| Pooling.MeanPooling | OnnxEmbeddings/Models/Pooling.cs:5-25 | The legacy pooling sums over the axis list ONE = [1]. It succeeds under the same shape condition and has the same result shape. |
| Pooling.SameAsPoolingHelpers | OnnxEmbeddings/Models/Pooling.cs:7-25 | The legacy pooling equals PoolingHelpers.MeanPooling on every input, both in its result and in its failures. |
| SimilarityHelpers.DotProduct | OnnxEmbeddings/Helpers/SimilarityHelpers.cs:22-32 | The loop runs over the first array's length. It returns Σ_{i<n} first[i]·second[i] when the second array is at least as long, and 0 for an empty first array. Otherwise the index is out of range. Neither array is written. |
| SimilarityHelpers.DotSymmetric | OnnxEmbeddings/Helpers/SimilarityHelpers.cs:22-32 | Over the reals, the dot product does not depend on the order of the arrays. |
| SimilarityHelpers.DotIgnoresTail | OnnxEmbeddings/Helpers/SimilarityHelpers.cs:26 | Elements beyond the first n of either array do not affect the result. |
| TextHelpers.Pow10 | OnnxEmbeddings/Helpers/TextHelpers.cs:9 | `MathF.Pow(10, d)` is at least 1. |
| TextHelpers.Truncate | OnnxEmbeddings/Helpers/TextHelpers.cs:13 | The `(int)` cast truncates toward zero: it never moves away from zero and moves by less than 1. |
| TextHelpers.PercentageValue | OnnxEmbeddings/Helpers/TextHelpers.cs:7-15 | With decimalPlaces defaulting to 2, the number is value·100 cut toward zero to d places. For value ≥ 0 it is ≤ value·100 and within 10^-d of it. For value ≤ 0 it is ≥ value·100 and within 10^-d. Scaled by 10^d it is exactly the integer the cast produced. |
| TextHelpers.ScaleBack | OnnxEmbeddings/Helpers/TextHelpers.cs:15 | Dividing by 10^d undoes scaling by 10^d: the quotient scaled back up is the truncated integer. |
| TextHelpers.NormalizedToPercentageNonRounding | OnnxEmbeddings/Helpers/TextHelpers.cs:7-18 | The text is the rendered truncated number followed by `%`. |
| Tokenizer.Fill | OnnxEmbeddings/Models/HuggingFace/SentenceEmbedder.cs:58-61 | A fresh buffer holding exactly what Encode writes. |
| GTELargeENV1_5.CreateInput | OnnxEmbeddings/Models/HuggingFace/GTELargeENV1_5.cs:190-204 | Three fresh buffers of batchSize·maxSequenceLength slots hold the tokenizer's values. A negative size fails as `new long[]` does. |
| GTELargeENV1_5.InputShape | OnnxEmbeddings/Models/HuggingFace/GTELargeENV1_5.cs:107-133 | The shape dictionary maps exactly the three input names to the one dims array `[batchSize, maxSequenceLength]`. Its product is the buffer size. |
| GTELargeENV1_5.ClsIndexOf | OnnxEmbeddings/Models/HuggingFace/GTELargeENV1_5.cs:172 | The source index of slot b·1024+d is b·S·1024+d, which is token 0 of sentence b, and it lies inside the hidden state. |
| GTELargeENV1_5.ClsRows | OnnxEmbeddings/Models/HuggingFace/GTELargeENV1_5.cs:166-174 | The gathered buffer has batchSize·1024 elements. Each one is read from inside the hidden state at the first token of its sentence. |
| GTELargeENV1_5.ClsRowAt | OnnxEmbeddings/Models/HuggingFace/GTELargeENV1_5.cs:172 | Row b, column d of the result is `lastHiddenState[b·S·1024+d]`, which is component d of token 0 of sentence b. |
| GTELargeENV1_5.OnlyFirstTokenRead | OnnxEmbeddings/Models/HuggingFace/GTELargeENV1_5.cs:168-174 | Two hidden states that agree on every sentence's first token give the same result. Positions ≥ 1 never matter. |
| GTELargeENV1_5.SlotsDistinct | OnnxEmbeddings/Models/HuggingFace/GTELargeENV1_5.cs:168-174 | No two (batchIndex, dimensionIndex) pairs write the same slot. |
| GTELargeENV1_5.GatherClsRows | OnnxEmbeddings/Models/HuggingFace/GTELargeENV1_5.cs:166-174 | The nested loops fill a fresh `[batch, 1024]` buffer equal to ClsRows. With a non-empty batch and sequence length 0, the first read is out of range. |
| GTELargeENV1_5.Embed | OnnxEmbeddings/Models/HuggingFace/GTELargeENV1_5.cs:85-188 | The call succeeds exactly when 0 ≤ maxSequenceLength ≤ 8192 and the gather can read. A length above 8192 raises the length error, after a successful CreateInput. `outputDimensions` is `[batchSize, 1024]`. Without normalization, the gathered buffer is returned unchanged, with product of dims = length. With it, the normalized `[batch, 1024]` tensor of that buffer is returned. |
| GTELargeENV1_5.GenerateEmbeddings | OnnxEmbeddings/Models/HuggingFace/GTELargeENV1_5.cs:85-188 | The imperative method (CreateInput, check, shape, loops, branch) returns exactly Embed. |
| GTELargeENV1_5.GenerateNormalizedEmbeddings | OnnxEmbeddings/Models/HuggingFace/GTELargeENV1_5.cs:76-83 | The overload without a flag is Embed with normalize = true. |
| HuggingFaceMiniLML6V2.CreateInput | OnnxEmbeddings/Models/HuggingFace/MiniLML6V2.cs:213-226 | Two fresh buffers of batchSize·maxSequenceLength slots hold the tokenizer's values. A negative size fails. |
| HuggingFaceMiniLML6V2.SchemaDimensions | OnnxEmbeddings/Models/HuggingFace/MiniLML6V2.cs:111-152 | The dims `[batch, seq]`, `[batch, seq, 384]` and `[batch, 384]` have products batch·seq, batch·seq·384 and batch·384. |
| HuggingFaceMiniLML6V2.SentenceTensorAsWritten | OnnxEmbeddings/Models/HuggingFace/MiniLML6V2.cs:199 | Building the `[batch, 384]` sentence embeddings with the token dims `[batch, seq, 384]` succeeds only for an empty batch or seq = 1. |
| HuggingFaceMiniLML6V2.DimensionMismatch | OnnxEmbeddings/Models/HuggingFace/MiniLML6V2.cs:146-199 | batch·seq·384 ≠ batch·384 for a non-empty batch unless seq = 1. |
| HuggingFaceMiniLML6V2.SentenceTensorAsWrittenFails | OnnxEmbeddings/Models/HuggingFace/MiniLML6V2.cs:199 | Two sentences with sequence length 256 make that tensor fail. |
| HuggingFaceMiniLML6V2.SentenceTensor | OnnxEmbeddings/Models/HuggingFace/MiniLML6V2.cs:199 | With its own dims `[batch, 384]`, the sentence-embedding tensor always builds and keeps its data. |
| HuggingFaceMiniLML6V2.Pool | OnnxEmbeddings/Models/HuggingFace/MiniLML6V2.cs:174-180 | On this model's buffers, mean pooling cannot fail and yields `[batch, 384]`. |
| HuggingFaceMiniLML6V2.Embed | OnnxEmbeddings/Models/HuggingFace/MiniLML6V2.cs:86-203 | The call succeeds exactly when 0 ≤ maxSequenceLength ≤ 256 and the path is not the one without pooling but with normalization. A length above 256 raises the length error after CreateInput. Otherwise that path always fails with a shape error: line 199 cannot build its tensor, and when it can (an empty batch or maxSequenceLength = 1), NormalizeTensor cannot expand the norms of a rank-3 tensor. The out dims are `[batch, 384]`. Pooling comes first and normalization only when asked. Without either, the sentence embeddings are returned unchanged. |
| HuggingFaceMiniLML6V2.EmbedIntended | OnnxEmbeddings/Models/HuggingFace/MiniLML6V2.cs:86-203 | With line 199 corrected to `[batch, 384]`, the call succeeds exactly when 0 ≤ maxSequenceLength ≤ 256, and that path normalizes the `[batch, 384]` sentence tensor. |
| HuggingFaceMiniLML6V2.EmbedAgreesWithIntended | OnnxEmbeddings/Models/HuggingFace/MiniLML6V2.cs:152-199 | Wherever the façade as written succeeds, the corrected one does too. On every path except the normalized one without pooling, both return the same result. |
| HuggingFaceMiniLML6V2.PooledEmbeddingAt | OnnxEmbeddings/Models/HuggingFace/MiniLML6V2.cs:174-187 | With pooling and no normalization, component h of sentence b is the masked mean of that sentence's token embeddings. |
| HuggingFaceMiniLML6V2.GenerateEmbeddings | OnnxEmbeddings/Models/HuggingFace/MiniLML6V2.cs:86-203 | The method, with line 199's tensor and its normalization as written, returns exactly Embed. |
| HuggingFaceMiniLML6V2.GeneratePooledNormalizedEmbeddings | OnnxEmbeddings/Models/HuggingFace/MiniLML6V2.cs:76-84 | The overload without flags is Embed with meanPooling = normalize = true. |
| MiniLML6V2.CreateInput | OnnxEmbeddings/Models/MiniLML6V2.cs:191-208 | Two fresh buffers of batchSize·256 slots hold the tokenizer's values. |
| MiniLML6V2.InputDimensionsAsWritten | OnnxEmbeddings/Models/MiniLML6V2.cs:79-94 | The dims `[batchSize, inputIDs.Length]` describe the batchSize·256 buffer only when batchSize ≤ 1. |
| MiniLML6V2.PredictInputs | OnnxEmbeddings/Models/MiniLML6V2.cs:86-142 | Predict turns each input buffer of B·256 slots into a tensor of its declared dims `[B, B·256]`. That succeeds exactly when B ≤ 1, keeping both buffers under those dims; every larger batch is a shape error before the model runs. |
| MiniLML6V2.PredictInputsFailsForTwoSentences | OnnxEmbeddings/Models/MiniLML6V2.cs:86-142 | Two sentences: the engine rejects the inputs as written, whatever the tokenizer wrote. |
| MiniLML6V2.SquareMismatch | OnnxEmbeddings/Models/MiniLML6V2.cs:88 | B·(B·256) = B·256 exactly when B ≤ 1. |
| MiniLML6V2.InputDimensions | OnnxEmbeddings/Models/MiniLML6V2.cs:88-94 | The intended dims `[batchSize, 256]` describe the buffers for every batch size. |
| MiniLML6V2.TokenDimensions | OnnxEmbeddings/Models/MiniLML6V2.cs:124 | `[batchSize, seq, 384]` has batchSize·seq·384 elements, and pools to `[batchSize, 384]`. |
| MiniLML6V2.PoolAsWritten | OnnxEmbeddings/Models/MiniLML6V2.cs:166-172 | Pooling with the dims as written succeeds exactly when the batch has at most one sentence and the token embeddings have the declared length B·(B·256·384). |
| MiniLML6V2.PoolAsWrittenFailsForTwoSentences | OnnxEmbeddings/Models/MiniLML6V2.cs:166-172 | Two sentences: pooling with the dims as written fails, whatever the model returns. |
| MiniLML6V2.PoolAsWrittenAgreesUpToOneSentence | OnnxEmbeddings/Models/MiniLML6V2.cs:88-94 | For zero or one sentence, the dims as written and the intended dims give the same pooling. |
| MiniLML6V2.Pool | OnnxEmbeddings/Models/MiniLML6V2.cs:166-172 | With the dims `[B, 256]` and `[B, 256, 384]`, pooling cannot fail and yields B·384 values of shape `[B, 384]`. |
| MiniLML6V2.PoolAt | OnnxEmbeddings/Models/MiniLML6V2.cs:166-179 | Element b·384+h of that pooling is the masked mean of column h of sentence b. |
| MiniLML6V2.SentenceTensorAsWritten | OnnxEmbeddings/Models/MiniLML6V2.cs:161 | The non-pooled normalized path builds the sentence embeddings with `[B, B·256, 384]`. That fails with a shape error for every non-empty batch, and for an empty batch it keeps the data under those dims. |
| MiniLML6V2.TokenDimensionsTooLarge | OnnxEmbeddings/Models/MiniLML6V2.cs:124-161 | B·(B·256·384) > B·384 for B > 0. |
| MiniLML6V2.SentenceTensor | OnnxEmbeddings/Models/MiniLML6V2.cs:161 | With `[B, 384]`, the tensor builds and keeps the sentence embeddings. |
| MiniLML6V2.Embed | OnnxEmbeddings/Models/MiniLML6V2.cs:71-181 | With the token embeddings of the declared `[B, B·256, 384]` length, the call succeeds exactly when the batch has at most one sentence and the path is not the one without pooling but with normalization. Every failure is a shape error: a batch of two or more fails at Predict, on every path. Normalizing without pooling always fails: line 161 cannot build its tensor for a non-empty batch, and for an empty one NormalizeTensor cannot expand the norms of a rank-3 tensor. For at most one sentence, without pooling and without normalization, the sentence embeddings are returned as-is. With pooling, the batch has at most one sentence and the result is the intended pooling, normalized after pooling and only when asked. |
| MiniLML6V2.EmbedIntended | OnnxEmbeddings/Models/MiniLML6V2.cs:71-181 | With the dims corrected to `[B, 256]`, `[B, 256, 384]` and `[B, 384]`, the call never fails. It returns the sentence embeddings, their normalized `[B, 384]` tensor, or the pooling, normalized only when asked. |
| MiniLML6V2.EmbedAgreesWithIntended | OnnxEmbeddings/Models/MiniLML6V2.cs:88-172 | For at most one sentence, the declared and intended token-embedding lengths coincide. On every path except the normalized one without pooling, the façade as written returns what the corrected one returns. |
| MiniLML6V2.GenerateEmbeddings | OnnxEmbeddings/Models/MiniLML6V2.cs:71-181 | The method, whose flags default to true, runs the input check, the dims and the normalization as written and returns exactly Embed. |
| SentenceEmbedder.InputNames | OnnxEmbeddings/Models/HuggingFace/SentenceEmbedder.cs:19-33 | The base names are `[input_ids, attention_mask]`, and the extended names append `token_type_ids`. No name repeats. |
| SentenceEmbedder.Tokenize | OnnxEmbeddings/Models/HuggingFace/SentenceEmbedder.cs:53-64 | A basic input of two fresh buffers of batch·maxSeq slots with Dimensions `[batch, maxSeq]`. A negative buffer size fails. |
| SentenceEmbedder.TokenizeExtended | OnnxEmbeddings/Models/HuggingFace/SentenceEmbedder.cs:85-97 | The same, with a third fresh buffer of token type ids under the same Dimensions. |
| SentenceEmbedder.NamedInputs | OnnxEmbeddings/Models/HuggingFace/SentenceEmbedder.cs:125-156 | The named tensors come in InputNames order: ids, then mask, then type ids for the extended kind. All have the input's Dimensions and carry their buffers. They fail exactly when a Dimensions product differs from a buffer length or is negative. |
| SentenceEmbedder.TokenizedInputAccepted | OnnxEmbeddings/Models/HuggingFace/SentenceEmbedder.cs:53-64 | What the tokenizing constructors build is always accepted as tensors when maxSeq ≥ 0. |
| SentenceEmbedder.NegativeLengthRejected | OnnxEmbeddings/Models/HuggingFace/SentenceEmbedder.cs:46-51 | The buffers are not checked against Dimensions when the input is built. An empty batch with a negative sequence length is rejected only later, by the tensors. |
| SentenceEmbedder.PopulateOutput | OnnxEmbeddings/Models/HuggingFace/SentenceEmbedder.cs:113-116 | The output is the first run result, and an empty result is out of range. |
| SentenceEmbedder.Embedder.constructor | OnnxEmbeddings/Models/HuggingFace/SentenceEmbedder.cs:174-184 | The output names are `[last_hidden_state]` and must equal the session's output names. |
| SentenceEmbedder.Embedder.GenerateEmbeddings | OnnxEmbeddings/Models/HuggingFace/SentenceEmbedder.cs:186-199 | One run asks for the declared output names, and its first output becomes the last hidden state. |
| SentenceEmbedder.Embedding | OnnxEmbeddings/Models/HuggingFace/SentenceEmbedder.cs:119-157 | An extension call succeeds exactly when the named tensors build. Its hidden state is the first output of the run on them. |
| SentenceEmbedder.GenerateEmbeddingsFor | OnnxEmbeddings/Models/HuggingFace/SentenceEmbedder.cs:119-157 | Both extension overloads, chosen by the input kind, return exactly Embedding. |

## Left out

- The ONNX engine is not modelled: MLContext, ApplyOnnxModel, Fit, CreatePredictionEngine, Predict, InferenceSession.Run and Dispose. The one exception is the rule that Predict reads each input buffer under its declared dims, which MiniLML6V2.PredictInputs models. Its outputs are parameters of the lengths the output schemas declare. The session is a function parameter.
- The tokenizer's vocabulary, word-piece algorithm and download are not modelled. The values Encode writes are the `Tokenizer.Encoding` parameter.
- The single-sentence CreateInput overloads (Models/MiniLML6V2.cs:183-189 and Models/HuggingFace/MiniLML6V2.cs:205-211) are not modelled. Their lengths come from the tokenizer's own truncation, which is not modelled.
- Tensors.NormalizeTensor: only the shape check of TorchHelpers.NormalizeTensor and Normalization.NormalizeTensor is modelled, with their default arguments. The p-norm, with pow and sqrt inside Torch, and the division are the function parameter `normalizeTensor`, so no property of the normalized vectors is claimed. The GTE façade calls it with dim 1 on a rank-2 tensor, which passes the same check.
- SimilarityHelpers.TopKByCosineSimilarity is not modelled. It is made entirely of Torch norm, mm, transpose and topk calls.
- IEEE single-precision rounding, NaN and overflow are not modelled. Floats are real numbers, `float.MaxValue` is a real constant, and MathF.Pow(10, d) is exact. So DotSymmetric and the percentage bounds hold for the reals, not necessarily for the float results.
- TextHelpers.Truncate: the `(int)` cast of a value outside the int range is not modelled (it is unspecified in .NET). The model truncates any real.
- TextHelpers.NormalizedToPercentageNonRounding: .NET's float-to-string formatting is the parameter `render`.
- Integer widths are not modelled: batchSize·maxSequenceLength and the gather index are unbounded integers here. So `int` overflow in the buffer size and in `batchIndex * maxSequenceLength * EMBEDDING_DIMENSION` is not modelled. ExpandToLong does model its int32 and int64 values, as newtypes.
- CastHelpers.ExpandSpanToLong: Vector<int>.Count and Vector<long>.Count are parameters with W a power of two and W = 2·(W/2), as on every .NET platform.
- The HuggingFace façades pass their dims through ExpandToLong before calling Torch, and Models/MiniLML6V2.cs:147-148 converts them with `Select(x => (long)x)`. The model uses the dims directly. ExpandSpanToLong is proved to preserve every value, and the LINQ cast widens each `int` exactly.
- Tensors.ExpandLast: only the broadcast mean pooling performs is modelled, where a trailing axis of 1 grows and every other extent is kept. Other broadcasts that Torch allows, such as growing other axes of extent 1 or adding leading axes, are reported as shape errors.
- Tensors.FromArray: Torch's error messages and exception types are one `ShapeMismatch` error.
- MiniLML6V2.Embed: the token-embedding length is the one the declared `[B, B·256, 384]` schema gives. What ML.NET does when the ONNX output does not fill the declared vector is not modelled. The engine's input check is modelled only as the rule that a buffer must fill its declared dims (PredictInputs); its exception type and message are one `ShapeMismatch` error.
- GTELargeENV1_5.Embed and HuggingFaceMiniLML6V2.Embed: a negative maxSequenceLength with an empty batch is reported as a `NegativeDimension` error. Where exactly ML.NET rejects a negative schema dimension is not modelled.
- SentenceEmbedder.Embedder.constructor: Debug.Assert is active only in debug builds. The model requires the output names to match in every build.
- The Program.cs samples, the IModel and IHuggingFaceModel interfaces, LoadModelAsync and the model configuration types are not modelled: they are console I/O, interfaces without behaviour, and asynchronous loading.
- The IS_EXTENDED_INPUT reflection is replaced by the `InputKind` tag of the embedder and of the input.

## Findings

| source | as written | input that shows it | evidently intended | confidence | as-written member | corrected member |
|---|---|---|---|---|---|---|
| OnnxEmbeddings/Models/MiniLML6V2.cs:88-94 | The input dims are `[batchSize, inputIDs.Length]`, where inputIDs.Length is the whole flat buffer of batchSize·256. Predict reads both input buffers under them, and pooling uses them as the mask dims. | Two sentences: each input buffer has 512 slots, but `[2, 512]` describes 1024, so Predict rejects the inputs on every path, and pooling with the same dims would fail as well. | `[batchSize, 256]` | not executed | MiniLML6V2.PredictInputs, MiniLML6V2.PredictInputsFailsForTwoSentences, MiniLML6V2.PoolAsWritten, MiniLML6V2.PoolAsWrittenFailsForTwoSentences, MiniLML6V2.Embed | MiniLML6V2.Pool, MiniLML6V2.EmbedIntended |
| OnnxEmbeddings/Models/HuggingFace/MiniLML6V2.cs:199 | The non-pooled normalized path builds a tensor from the `[batch, 384]` sentence embeddings with the token dims `[batch, seq, 384]`. | Two sentences with maxSequenceLength 256: 768 values against dims of 196608 elements. Even where the tensor builds (an empty batch, or maxSequenceLength 1), it has rank 3, and NormalizeTensor's `expand([-1, -1])` rejects its norms, so the path never succeeds. | `[batch, 384]` | not executed | HuggingFaceMiniLML6V2.SentenceTensorAsWritten, HuggingFaceMiniLML6V2.SentenceTensorAsWrittenFails, HuggingFaceMiniLML6V2.Embed | HuggingFaceMiniLML6V2.SentenceTensor, HuggingFaceMiniLML6V2.EmbedIntended |
| OnnxEmbeddings/Models/MiniLML6V2.cs:161 | The same path builds the sentence embeddings with `[batchSize, inputIDs.Length, 384]`. | One sentence: 384 values against dims of 98304 elements. For an empty batch the tensor builds, but it has rank 3, and NormalizeTensor's `expand([-1, -1])` rejects its norms, so the path never succeeds. | `[batchSize, 384]` | not executed | MiniLML6V2.SentenceTensorAsWritten, MiniLML6V2.Embed | MiniLML6V2.SentenceTensor, MiniLML6V2.EmbedIntended |
