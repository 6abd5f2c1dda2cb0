/** Models.MiniLML6V2: the older all-MiniLM-L6-v2 façade with a fixed
    sequence length of 256 and no length check. Its schema dims use the flat
    buffer length where the sequence length belongs, so the engine rejects
    the inputs of every batch of two or more sentences. Embed and
    GenerateEmbeddings follow the dims as written; EmbedIntended computes
    with the evident [batch, 256] dims, and the two are related by lemmas. */
module MiniLML6V2 {
  import opened Common
  import opened Tensors
  import opened Tokenizer
  import PoolingHelpers
  import Pooling

  const MAX_SEQUENCE_LENGTH: nat := 256
  const EMBEDDING_DIMENSION: nat := 384

  const INPUT_IDS: string := "input_ids"
  const ATTENTION_MASK: string := "attention_mask"
  const TOKEN_EMBEDDINGS: string := "token_embeddings"
  const SENTENCE_EMBEDDING: string := "sentence_embedding"

  const INPUT_COLUMN_NAMES: seq<string> := [INPUT_IDS, ATTENTION_MASK]
  const OUTPUT_COLUMN_NAMES: seq<string> := [TOKEN_EMBEDDINGS, SENTENCE_EMBEDDING]

  /** The two token buffers handed to the model. */
  datatype Input = Input(inputIDs: array<int>, attentionMask: array<int>)

  /** CreateInput(string[]): two buffers of batchSize * 256 slots, filled by
      the tokenizer. */
  method CreateInput(sentences: seq<string>, encoding: Encoding) returns (input: Input)
    requires encoding.Fills(|sentences| * MAX_SEQUENCE_LENGTH)
    ensures fresh(input.inputIDs) && fresh(input.attentionMask)
    ensures input.inputIDs[..] == encoding.inputIDs && input.attentionMask[..] == encoding.attentionMask
    ensures input.inputIDs.Length == input.attentionMask.Length == |sentences| * MAX_SEQUENCE_LENGTH
  {
    var inputIDs := Fill(encoding.inputIDs);
    var attentionMask := Fill(encoding.attentionMask);
    input := Input(inputIDs, attentionMask);
  }

  /** The input dims as written: [batchSize, inputIDs.Length], the flat
      buffer length in the sequence position. Their element count is the
      buffer length only for a batch of at most one sentence. */
  function InputDimensionsAsWritten(batchSize: nat, inputIDsLength: nat): (dims: seq<int>)
    ensures inputIDsLength == batchSize * MAX_SEQUENCE_LENGTH ==> (Prod(dims) == inputIDsLength <==> batchSize <= 1)
  {
    ProdTwo(batchSize, inputIDsLength);
    SquareMismatch(batchSize);
    [batchSize, inputIDsLength]
  }

  /** B * (B * 256) == B * 256 exactly when B <= 1. */
  lemma SquareMismatch(batchSize: nat)
    ensures batchSize * (batchSize * MAX_SEQUENCE_LENGTH) == batchSize * MAX_SEQUENCE_LENGTH <==> batchSize <= 1
  {
    if batchSize >= 2 {
      MulLeft(2 * MAX_SEQUENCE_LENGTH, batchSize * MAX_SEQUENCE_LENGTH, batchSize);
      MulLeft(1, batchSize, MAX_SEQUENCE_LENGTH);
    }
  }

  /** What engine.Predict makes of the two input columns: each buffer
      becomes a tensor of the dims its schema declares, [batchSize,
      inputIDs.Length]. With the flat buffer length in the sequence position
      those dims describe the buffers only for at most one sentence, so every
      larger batch is rejected before the model runs. */
  function PredictInputs(batchSize: nat, inputIDs: seq<int>, attentionMask: seq<int>): (r: Result<(Tensor<int>, Tensor<int>)>)
    requires |inputIDs| == |attentionMask| == batchSize * MAX_SEQUENCE_LENGTH
    ensures r.Ok? <==> batchSize <= 1
    ensures r.Err? ==> r.error == ShapeMismatch
    ensures r.Ok? ==> r.value.0.data == inputIDs && r.value.1.data == attentionMask &&
                      r.value.0.shape == r.value.1.shape == [batchSize, |inputIDs|]
  {
    var inputIDsDimensions := InputDimensionsAsWritten(batchSize, |inputIDs|);
    var attentionMaskDimensions := InputDimensionsAsWritten(batchSize, |attentionMask|);
    match (FromArray(inputIDs, inputIDsDimensions), FromArray(attentionMask, attentionMaskDimensions))
    case (Ok(ids), Ok(mask)) => Ok((ids, mask))
    case _ => Err(ShapeMismatch)
  }

  /** With two sentences the engine rejects the inputs as written. */
  lemma PredictInputsFailsForTwoSentences(inputIDs: seq<int>, attentionMask: seq<int>)
    requires |inputIDs| == |attentionMask| == 2 * MAX_SEQUENCE_LENGTH
    ensures PredictInputs(2, inputIDs, attentionMask) == Err(ShapeMismatch)
  {
  }

  /** The input dims evidently meant: [batchSize, 256], which describe the
      buffers for every batch size. */
  function InputDimensions(batchSize: nat): (dims: seq<int>)
    ensures |dims| == 2 && dims[0] == batchSize && Prod(dims) == batchSize * MAX_SEQUENCE_LENGTH
  {
    ProdTwo(batchSize, MAX_SEQUENCE_LENGTH);
    [batchSize, MAX_SEQUENCE_LENGTH]
  }

  /** The token-embedding dims [batchSize, sequence, 384] for a given
      sequence extent. */
  function TokenDimensions(batchSize: nat, sequence: nat): (dims: seq<int>)
    ensures Prod(dims) == batchSize * (sequence * EMBEDDING_DIMENSION)
    ensures |dims| == 3 && dims[..2] == [batchSize, sequence] && [dims[0]] + dims[2..] == [batchSize, EMBEDDING_DIMENSION]
  {
    PoolingHelpers.ProdOfThree(batchSize, sequence, EMBEDDING_DIMENSION);
    [batchSize, sequence, EMBEDDING_DIMENSION]
  }

  /** Mean pooling as written: mask dims [batchSize, inputIDs.Length] and
      token dims [batchSize, inputIDs.Length, 384]. */
  function PoolAsWritten(batchSize: nat, attentionMask: seq<int>, tokenEmbeddings: seq<real>): (r: Result<Tensor<real>>)
    requires |attentionMask| == batchSize * MAX_SEQUENCE_LENGTH
    ensures r.Ok? <==> batchSize <= 1 && |tokenEmbeddings| == batchSize * (batchSize * MAX_SEQUENCE_LENGTH * EMBEDDING_DIMENSION)
  {
    var length := |attentionMask|;
    var maskDims := InputDimensionsAsWritten(batchSize, length);
    Pooling.MeanPooling(tokenEmbeddings, attentionMask, maskDims, TokenDimensions(batchSize, length))
  }

  /** With two sentences the pooling as written fails whatever the model
      returns. */
  lemma PoolAsWrittenFailsForTwoSentences(tokenEmbeddings: seq<real>)
    ensures PoolAsWritten(2, seq(2 * MAX_SEQUENCE_LENGTH, _ => 1), tokenEmbeddings).Err?
  {
  }

  /** Mean pooling with the dims evidently meant: [batchSize, 256] and
      [batchSize, 256, 384]. It cannot fail and yields [batchSize, 384]. */
  function Pool(batchSize: nat, attentionMask: seq<int>, tokenEmbeddings: seq<real>): (t: Tensor<real>)
    requires |attentionMask| == batchSize * MAX_SEQUENCE_LENGTH
    requires |tokenEmbeddings| == batchSize * (MAX_SEQUENCE_LENGTH * EMBEDDING_DIMENSION)
    ensures t.shape == [batchSize, EMBEDDING_DIMENSION] && |t.data| == batchSize * EMBEDDING_DIMENSION
  {
    var maskDims := InputDimensions(batchSize);
    var tokenDims := TokenDimensions(batchSize, MAX_SEQUENCE_LENGTH);
    assert PoolingHelpers.ShapesAgree(tokenEmbeddings, attentionMask, maskDims, tokenDims);
    Pooling.MeanPooling(tokenEmbeddings, attentionMask, maskDims, tokenDims).value
  }

  /** For at most one sentence the dims as written coincide with the
      intended ones, so both poolings agree. */
  lemma PoolAsWrittenAgreesUpToOneSentence(batchSize: nat, attentionMask: seq<int>, tokenEmbeddings: seq<real>)
    requires batchSize <= 1
    requires |attentionMask| == batchSize * MAX_SEQUENCE_LENGTH
    requires |tokenEmbeddings| == batchSize * (MAX_SEQUENCE_LENGTH * EMBEDDING_DIMENSION)
    ensures PoolAsWritten(batchSize, attentionMask, tokenEmbeddings) == Ok(Pool(batchSize, attentionMask, tokenEmbeddings))
  {
    if batchSize == 1 {
      assert InputDimensionsAsWritten(batchSize, |attentionMask|) == InputDimensions(batchSize);
      assert TokenDimensions(batchSize, |attentionMask|) == TokenDimensions(batchSize, MAX_SEQUENCE_LENGTH);
    } else {
      // An empty batch: both poolings give the empty [0, 384] tensor.
      var asWritten := PoolAsWritten(batchSize, attentionMask, tokenEmbeddings);
      ProdTwo(0, EMBEDDING_DIMENSION);
      assert asWritten.Ok? && asWritten.value.shape == [0, EMBEDDING_DIMENSION];
      assert asWritten.value.data == [] == Pool(batchSize, attentionMask, tokenEmbeddings).data;
    }
  }

  /** Element (b, h) of the intended pooling is the masked mean of column h
      of sentence b. */
  lemma PoolAt(batchSize: nat, attentionMask: seq<int>, tokenEmbeddings: seq<real>, b: nat, h: nat)
    requires |attentionMask| == batchSize * MAX_SEQUENCE_LENGTH
    requires |tokenEmbeddings| == batchSize * (MAX_SEQUENCE_LENGTH * EMBEDDING_DIMENSION)
    requires b < batchSize && h < EMBEDDING_DIMENSION
    ensures 0 <= b * EMBEDDING_DIMENSION + h < |Pool(batchSize, attentionMask, tokenEmbeddings).data|
    ensures Pool(batchSize, attentionMask, tokenEmbeddings).data[b * EMBEDDING_DIMENSION + h] ==
            PoolingHelpers.PooledValue(tokenEmbeddings, attentionMask, MAX_SEQUENCE_LENGTH, EMBEDDING_DIMENSION, b, h)
  {
    var maskDims := InputDimensions(batchSize);
    var tokenDims := TokenDimensions(batchSize, MAX_SEQUENCE_LENGTH);
    Pooling.SameAsPoolingHelpers(tokenEmbeddings, attentionMask, maskDims, tokenDims);
    PoolingHelpers.MeanPoolingAt(tokenEmbeddings, attentionMask, batchSize, MAX_SEQUENCE_LENGTH, EMBEDDING_DIMENSION, b, h);
  }

  /** The non-pooled normalized path as written: the [batchSize, 384]
      sentence embeddings with the token dims [batchSize, inputIDs.Length, 384].
      It fails for every non-empty batch. */
  function SentenceTensorAsWritten(sentenceEmbeddings: seq<real>, batchSize: nat): (r: Result<Tensor<real>>)
    requires |sentenceEmbeddings| == batchSize * EMBEDDING_DIMENSION
    ensures r.Ok? <==> batchSize == 0
    ensures r.Err? ==> r.error == ShapeMismatch
    ensures r.Ok? ==> r.value.data == sentenceEmbeddings &&
                      r.value.shape == [batchSize, batchSize * MAX_SEQUENCE_LENGTH, EMBEDDING_DIMENSION]
  {
    var dims := TokenDimensions(batchSize, batchSize * MAX_SEQUENCE_LENGTH);
    TokenDimensionsTooLarge(batchSize);
    FromArray(sentenceEmbeddings, dims)
  }

  lemma TokenDimensionsTooLarge(batchSize: nat)
    ensures batchSize > 0 ==> batchSize * (batchSize * MAX_SEQUENCE_LENGTH * EMBEDDING_DIMENSION) > batchSize * EMBEDDING_DIMENSION
  {
    if batchSize == 0 { return; }
    MulLeft(1, batchSize, MAX_SEQUENCE_LENGTH);
    MulLeft(MAX_SEQUENCE_LENGTH, batchSize * MAX_SEQUENCE_LENGTH, EMBEDDING_DIMENSION);
    MulLeft(2 * EMBEDDING_DIMENSION, batchSize * MAX_SEQUENCE_LENGTH * EMBEDDING_DIMENSION, batchSize);
    MulLeft(1, batchSize, EMBEDDING_DIMENSION);
  }

  /** The tensor that path evidently means: [batchSize, 384]. */
  function SentenceTensor(sentenceEmbeddings: seq<real>, batchSize: nat): (t: Tensor<real>)
    requires |sentenceEmbeddings| == batchSize * EMBEDDING_DIMENSION
    ensures t.Valid() && t.data == sentenceEmbeddings && t.shape == [batchSize, EMBEDDING_DIMENSION]
  {
    ProdTwo(batchSize, EMBEDDING_DIMENSION);
    FromArray(sentenceEmbeddings, [batchSize, EMBEDDING_DIMENSION]).value
  }

  /** What GenerateEmbeddings returns, with the dims as written: without
      pooling the model's sentence embeddings, normalized only when asked;
      with pooling the mean pooling, normalized only when asked. Normalizing
      the sentence embeddings without pooling always fails: they are built
      as a rank-3 tensor, which Normalization.NormalizeTensor cannot expand
      its norms over (Tensors.NormalizeTensor). The token
      embeddings have the length the declared [batch, batch * 256, 384]
      schema gives them. `normalizeTensor` is what
      Normalization.NormalizeTensor computes on a rank-2 tensor. Before any
      of this, Predict rejects the inputs of a batch of two or more
      sentences (PredictInputs). */
  function Embed(batchSize: nat, meanPooling: bool, normalize: bool, inputIDs: seq<int>, attentionMask: seq<int>,
                 tokenEmbeddings: seq<real>, sentenceEmbeddings: seq<real>,
                 normalizeTensor: Tensor<real> -> Tensor<real>): (r: Result<seq<real>>)
    requires |inputIDs| == |attentionMask| == batchSize * MAX_SEQUENCE_LENGTH
    requires |tokenEmbeddings| == batchSize * (batchSize * MAX_SEQUENCE_LENGTH * EMBEDDING_DIMENSION)
    requires |sentenceEmbeddings| == batchSize * EMBEDDING_DIMENSION
    ensures r.Ok? <==> batchSize <= 1 && (meanPooling || !normalize)
    ensures r.Err? ==> r.error == ShapeMismatch
    ensures batchSize <= 1 && !meanPooling && !normalize ==> r == Ok(sentenceEmbeddings)
    ensures meanPooling && r.Ok? ==> (batchSize <= 1 &&
              |tokenEmbeddings| == batchSize * (MAX_SEQUENCE_LENGTH * EMBEDDING_DIMENSION) &&
              var tensor := Pool(batchSize, attentionMask, tokenEmbeddings);
              r.value == (if normalize then normalizeTensor(tensor) else tensor).data)
  {
    var inputs :- PredictInputs(batchSize, inputIDs, attentionMask);
    if !meanPooling then
      if !normalize then Ok(sentenceEmbeddings)
      else
        var tokenEmbeddingsTensor :- SentenceTensorAsWritten(sentenceEmbeddings, batchSize);
        match NormalizeTensor(tokenEmbeddingsTensor, normalizeTensor)
        case Ok(normalized) => Ok(normalized.data)
        case Err(e) => Err(e)
    else
      OneSentenceLengths(batchSize, |tokenEmbeddings|);
      PoolAsWrittenAgreesUpToOneSentence(batchSize, attentionMask, tokenEmbeddings);
      var tensor := PoolAsWritten(batchSize, attentionMask, tokenEmbeddings).value;
      Ok((if normalize then normalizeTensor(tensor) else tensor).data)
  }

  /** For at most one sentence the declared token-embedding length is the
      intended one. */
  lemma OneSentenceLengths(batchSize: nat, length: nat)
    requires batchSize <= 1
    requires length == batchSize * (batchSize * MAX_SEQUENCE_LENGTH * EMBEDDING_DIMENSION)
    ensures length == batchSize * (MAX_SEQUENCE_LENGTH * EMBEDDING_DIMENSION)
  {
    if batchSize == 1 {
      assert batchSize * MAX_SEQUENCE_LENGTH * EMBEDDING_DIMENSION == MAX_SEQUENCE_LENGTH * EMBEDDING_DIMENSION;
    }
  }

  /** The façade with the dims evidently meant: pooling over [batch, 256]
      and the sentence embeddings as [batch, 384]. It never fails; the token
      embeddings have the length of the intended [batch, 256, 384]. */
  function EmbedIntended(batchSize: nat, meanPooling: bool, normalize: bool, attentionMask: seq<int>,
                         tokenEmbeddings: seq<real>, sentenceEmbeddings: seq<real>,
                         normalizeTensor: Tensor<real> -> Tensor<real>): (values: seq<real>)
    requires |attentionMask| == batchSize * MAX_SEQUENCE_LENGTH
    requires |tokenEmbeddings| == batchSize * (MAX_SEQUENCE_LENGTH * EMBEDDING_DIMENSION)
    requires |sentenceEmbeddings| == batchSize * EMBEDDING_DIMENSION
    ensures !meanPooling && !normalize ==> values == sentenceEmbeddings
    ensures meanPooling && !normalize ==> values == Pool(batchSize, attentionMask, tokenEmbeddings).data
    ensures meanPooling && normalize ==> values == normalizeTensor(Pool(batchSize, attentionMask, tokenEmbeddings)).data
    ensures !meanPooling && normalize ==> values == normalizeTensor(SentenceTensor(sentenceEmbeddings, batchSize)).data
  {
    if !meanPooling then
      if !normalize then sentenceEmbeddings
      else normalizeTensor(SentenceTensor(sentenceEmbeddings, batchSize)).data
    else
      var tensor := Pool(batchSize, attentionMask, tokenEmbeddings);
      (if normalize then normalizeTensor(tensor) else tensor).data
  }

  /** For at most one sentence the façade as written returns what the
      intended one does, except on the normalized path without pooling, which
      as written always fails. */
  lemma EmbedAgreesWithIntended(batchSize: nat, meanPooling: bool, normalize: bool, inputIDs: seq<int>,
                                attentionMask: seq<int>, tokenEmbeddings: seq<real>, sentenceEmbeddings: seq<real>,
                                normalizeTensor: Tensor<real> -> Tensor<real>)
    requires batchSize <= 1
    requires |inputIDs| == |attentionMask| == batchSize * MAX_SEQUENCE_LENGTH
    requires |tokenEmbeddings| == batchSize * (MAX_SEQUENCE_LENGTH * EMBEDDING_DIMENSION)
    requires |sentenceEmbeddings| == batchSize * EMBEDDING_DIMENSION
    ensures |tokenEmbeddings| == batchSize * (batchSize * MAX_SEQUENCE_LENGTH * EMBEDDING_DIMENSION)
    ensures meanPooling || !normalize ==>
              Embed(batchSize, meanPooling, normalize, inputIDs, attentionMask, tokenEmbeddings, sentenceEmbeddings, normalizeTensor) ==
              Ok(EmbedIntended(batchSize, meanPooling, normalize, attentionMask, tokenEmbeddings, sentenceEmbeddings, normalizeTensor))
  {
    if batchSize == 1 {
      assert batchSize * MAX_SEQUENCE_LENGTH * EMBEDDING_DIMENSION == MAX_SEQUENCE_LENGTH * EMBEDDING_DIMENSION;
    }
  }

  /** GenerateEmbeddings(sentences, meanPooling = true, normalize = true).
      `encoding` is what the tokenizer writes; `tokenEmbeddings` and
      `sentenceEmbeddings` are what the model returns, of the lengths of the
      declared [batch, batch * 256, 384] and [batch, 384] dims. */
  method GenerateEmbeddings(sentences: seq<string>, encoding: Encoding, tokenEmbeddings: seq<real>,
                            sentenceEmbeddings: seq<real>, normalizeTensor: Tensor<real> -> Tensor<real>,
                            meanPooling: bool := true, normalize: bool := true)
    returns (r: Result<seq<real>>)
    requires encoding.Fills(|sentences| * MAX_SEQUENCE_LENGTH)
    requires |tokenEmbeddings| == |sentences| * (|sentences| * MAX_SEQUENCE_LENGTH * EMBEDDING_DIMENSION)
    requires |sentenceEmbeddings| == |sentences| * EMBEDDING_DIMENSION
    ensures r == Embed(|sentences|, meanPooling, normalize, encoding.inputIDs, encoding.attentionMask,
                       tokenEmbeddings, sentenceEmbeddings, normalizeTensor)
  {
    var batchSize := |sentences|;
    var encodedCorpus := CreateInput(sentences, encoding);
    var encodedCorpusAttentionMask := encodedCorpus.attentionMask[..];
    var inputs :- PredictInputs(batchSize, encodedCorpus.inputIDs[..], encodedCorpusAttentionMask);
    if !meanPooling {
      if !normalize {
        return Ok(sentenceEmbeddings);
      } else {
        var tokenEmbeddingsTensor :- SentenceTensorAsWritten(sentenceEmbeddings, batchSize);
        r := match NormalizeTensor(tokenEmbeddingsTensor, normalizeTensor)
             case Ok(normalized) => Ok(normalized.data)
             case Err(e) => Err(e);
      }
    } else {
      OneSentenceLengths(batchSize, |tokenEmbeddings|);
      PoolAsWrittenAgreesUpToOneSentence(batchSize, encodedCorpusAttentionMask, tokenEmbeddings);
      var tensor := PoolAsWritten(batchSize, encodedCorpusAttentionMask, tokenEmbeddings).value;
      if normalize {
        tensor := normalizeTensor(tensor);
      }
      return Ok(tensor.data);
    }
  }
}
