/** HuggingFace.MiniLML6V2: the all-MiniLM-L6-v2 façade. It tokenizes into two
    [batch, sequence] buffers, runs the model, and returns either the mean
    pooling of the token embeddings or the model's own sentence embeddings,
    optionally L2-normalized. The ONNX model is opaque: its two outputs are
    parameters of the lengths the output schema declares. */
module HuggingFaceMiniLML6V2 {
  import opened Common
  import opened Tensors
  import opened Tokenizer
  import opened PoolingHelpers

  const MAX_SEQUENCE_LENGTH: int := 256
  const EMBEDDING_DIMENSION: nat := 384

  const INPUT_IDS: string := "input_ids"
  const ATTENTION_MASK: string := "attention_mask"
  const TOKEN_EMBEDDINGS: string := "token_embeddings"
  const SENTENCE_EMBEDDING: string := "sentence_embedding"

  const INPUT_COLUMN_NAMES: seq<string> := [INPUT_IDS, ATTENTION_MASK]
  const OUTPUT_COLUMN_NAMES: seq<string> := [TOKEN_EMBEDDINGS, SENTENCE_EMBEDDING]

  /** The two token buffers handed to the model. */
  datatype Input = Input(inputIDs: array<int>, attentionMask: array<int>)

  /** The returned embeddings and the `sentenceEmbeddingDimensions` out-parameter. */
  datatype Embeddings = Embeddings(values: seq<real>, dimensions: seq<int>)

  /** CreateInput(string[], int): two buffers of batchSize * maxSequenceLength
      slots, filled by the tokenizer. A negative size makes `new long[]` throw. */
  method CreateInput(sentences: seq<string>, maxSequenceLength: int, encoding: Encoding) returns (r: Result<Input>)
    requires |sentences| * maxSequenceLength >= 0 ==> encoding.Fills(|sentences| * maxSequenceLength)
    ensures r.Ok? <==> |sentences| * maxSequenceLength >= 0
    ensures r.Err? ==> r.error == NegativeBufferSize
    ensures r.Ok? ==> fresh(r.value.inputIDs) && fresh(r.value.attentionMask)
    ensures r.Ok? ==> r.value.inputIDs[..] == encoding.inputIDs && r.value.attentionMask[..] == encoding.attentionMask
    ensures r.Ok? ==> r.value.inputIDs.Length == r.value.attentionMask.Length == |sentences| * maxSequenceLength
  {
    var batchSize := |sentences|;
    var bufferSize := batchSize * maxSequenceLength;
    if bufferSize < 0 {
      return Err(NegativeBufferSize);
    }
    var inputIDs := Fill(encoding.inputIDs);
    var attentionMask := Fill(encoding.attentionMask);
    return Ok(Input(inputIDs, attentionMask));
  }

  /** The dims arrays of the schemas: the two inputs are [batch, sequence],
      the token embeddings [batch, sequence, 384] and the sentence embeddings
      [batch, 384]; each describes a buffer of its element count. */
  lemma SchemaDimensions(batchSize: nat, maxSequenceLength: nat)
    ensures Prod([batchSize, maxSequenceLength]) == batchSize * maxSequenceLength
    ensures Prod([batchSize, maxSequenceLength, EMBEDDING_DIMENSION]) == batchSize * (maxSequenceLength * EMBEDDING_DIMENSION)
    ensures Prod([batchSize, EMBEDDING_DIMENSION]) == batchSize * EMBEDDING_DIMENSION
  {
    ProdTwo(batchSize, maxSequenceLength);
    ProdOfThree(batchSize, maxSequenceLength, EMBEDDING_DIMENSION);
    ProdTwo(batchSize, EMBEDDING_DIMENSION);
  }

  /** The tensor of the non-pooled, normalized path as the source builds it:
      the [batch, 384] sentence embeddings with the token-embedding dims
      [batch, sequence, 384]. */
  function SentenceTensorAsWritten(sentenceEmbeddings: seq<real>, batchSize: nat, maxSequenceLength: nat): (r: Result<Tensor<real>>)
    requires |sentenceEmbeddings| == batchSize * EMBEDDING_DIMENSION
    ensures r.Ok? <==> batchSize == 0 || maxSequenceLength == 1
    ensures r.Err? ==> r.error == ShapeMismatch
    ensures r.Ok? ==> r.value.data == sentenceEmbeddings && r.value.shape == [batchSize, maxSequenceLength, EMBEDDING_DIMENSION]
  {
    SchemaDimensions(batchSize, maxSequenceLength);
    DimensionMismatch(batchSize, maxSequenceLength);
    FromArray(sentenceEmbeddings, [batchSize, maxSequenceLength, EMBEDDING_DIMENSION])
  }

  /** The token-embedding dims describe the sentence-embedding buffer only
      for an empty batch or a sequence length of one. */
  lemma DimensionMismatch(batchSize: nat, maxSequenceLength: nat)
    ensures batchSize > 0 && maxSequenceLength != 1 ==>
              batchSize * (maxSequenceLength * EMBEDDING_DIMENSION) != batchSize * EMBEDDING_DIMENSION
  {
    if batchSize == 0 || maxSequenceLength == 1 {
    } else if maxSequenceLength == 0 {
      MulNonNegative(batchSize - 1, EMBEDDING_DIMENSION);
    } else {
      MulLeft(2 * EMBEDDING_DIMENSION, maxSequenceLength * EMBEDDING_DIMENSION, batchSize);
      MulLeft(1, batchSize, EMBEDDING_DIMENSION);
    }
  }

  /** With a batch of two sentences and sequence length 256 the non-pooled
      normalized path fails to build its tensor. */
  lemma SentenceTensorAsWrittenFails()
    ensures SentenceTensorAsWritten(seq(2 * EMBEDDING_DIMENSION, _ => 0.0), 2, 256).Err?
  {
  }

  /** The tensor that path evidently means: the sentence embeddings with
      their own dims [batch, 384]. It always describes its buffer. */
  function SentenceTensor(sentenceEmbeddings: seq<real>, batchSize: nat): (r: Result<Tensor<real>>)
    requires |sentenceEmbeddings| == batchSize * EMBEDDING_DIMENSION
    ensures r.Ok? && r.value.data == sentenceEmbeddings && r.value.shape == [batchSize, EMBEDDING_DIMENSION]
  {
    SchemaDimensions(batchSize, 0);
    FromArray(sentenceEmbeddings, [batchSize, EMBEDDING_DIMENSION])
  }

  /** What GenerateEmbeddings returns, in the order the source fails:
      tokenizing first, then the maximum-length check, then the schema, then
      the tensor of the non-pooled normalized path, built as written, and its
      normalization, which as written always fails: that tensor has rank 3
      (Tensors.NormalizeTensor). `normalizeTensor` is what
      TorchHelpers.NormalizeTensor computes on a rank-2 tensor; the attention
      mask is the one the tokenizer wrote. */
  function Embed(batchSize: nat, maxSequenceLength: int, meanPooling: bool, normalize: bool, attentionMask: seq<int>,
                 tokenEmbeddings: seq<real>, sentenceEmbeddings: seq<real>,
                 normalizeTensor: Tensor<real> -> Tensor<real>): (r: Result<Embeddings>)
    requires maxSequenceLength >= 0 ==> |attentionMask| == batchSize * maxSequenceLength
    requires maxSequenceLength >= 0 ==> |tokenEmbeddings| == batchSize * (maxSequenceLength * EMBEDDING_DIMENSION)
    requires |sentenceEmbeddings| == batchSize * EMBEDDING_DIMENSION
    ensures r.Ok? <==> 0 <= maxSequenceLength <= MAX_SEQUENCE_LENGTH && (meanPooling || !normalize)
    ensures batchSize * maxSequenceLength >= 0 && maxSequenceLength > MAX_SEQUENCE_LENGTH ==>
              r == Err(SequenceTooLong(maxSequenceLength, MAX_SEQUENCE_LENGTH))
    ensures (0 <= maxSequenceLength <= MAX_SEQUENCE_LENGTH && !meanPooling && normalize) ==> r == Err(ShapeMismatch)
    ensures r.Ok? ==> r.value.dimensions == [batchSize, EMBEDDING_DIMENSION]
    ensures r.Ok? && meanPooling ==>
              var pooled := Pool(batchSize, maxSequenceLength, attentionMask, tokenEmbeddings);
              r.value.values == (if normalize then normalizeTensor(pooled) else pooled).data
    ensures r.Ok? && !meanPooling && !normalize ==> r.value.values == sentenceEmbeddings
  {
    if batchSize * maxSequenceLength < 0 then Err(NegativeBufferSize)
    else if maxSequenceLength > MAX_SEQUENCE_LENGTH then Err(SequenceTooLong(maxSequenceLength, MAX_SEQUENCE_LENGTH))
    else if maxSequenceLength < 0 then Err(NegativeDimension)
    else
      var sentenceEmbeddingDimensions := [batchSize, EMBEDDING_DIMENSION];
      if meanPooling then
        var tensor := Pool(batchSize, maxSequenceLength, attentionMask, tokenEmbeddings);
        var result := if normalize then normalizeTensor(tensor) else tensor;
        Ok(Embeddings(result.data, sentenceEmbeddingDimensions))
      else if !normalize then Ok(Embeddings(sentenceEmbeddings, sentenceEmbeddingDimensions))
      else
        var tensor :- SentenceTensorAsWritten(sentenceEmbeddings, batchSize, maxSequenceLength);
        match NormalizeTensor(tensor, normalizeTensor)
        case Ok(normalized) => Ok(Embeddings(normalized.data, sentenceEmbeddingDimensions))
        case Err(e) => Err(e)
  }

  /** The façade with the non-pooled normalized path corrected to build its
      tensor with the [batch, 384] dims: it fails only on the sequence length. */
  function EmbedIntended(batchSize: nat, maxSequenceLength: int, meanPooling: bool, normalize: bool, attentionMask: seq<int>,
                         tokenEmbeddings: seq<real>, sentenceEmbeddings: seq<real>,
                         normalizeTensor: Tensor<real> -> Tensor<real>): (r: Result<Embeddings>)
    requires maxSequenceLength >= 0 ==> |attentionMask| == batchSize * maxSequenceLength
    requires maxSequenceLength >= 0 ==> |tokenEmbeddings| == batchSize * (maxSequenceLength * EMBEDDING_DIMENSION)
    requires |sentenceEmbeddings| == batchSize * EMBEDDING_DIMENSION
    ensures r.Ok? <==> 0 <= maxSequenceLength <= MAX_SEQUENCE_LENGTH
    ensures batchSize * maxSequenceLength >= 0 && maxSequenceLength > MAX_SEQUENCE_LENGTH ==>
              r == Err(SequenceTooLong(maxSequenceLength, MAX_SEQUENCE_LENGTH))
    ensures r.Ok? ==> r.value.dimensions == [batchSize, EMBEDDING_DIMENSION]
    ensures r.Ok? && meanPooling ==>
              var pooled := Pool(batchSize, maxSequenceLength, attentionMask, tokenEmbeddings);
              r.value.values == (if normalize then normalizeTensor(pooled) else pooled).data
    ensures r.Ok? && !meanPooling && !normalize ==> r.value.values == sentenceEmbeddings
    ensures r.Ok? && !meanPooling && normalize ==>
              r.value.values == normalizeTensor(SentenceTensor(sentenceEmbeddings, batchSize).value).data
  {
    if batchSize * maxSequenceLength < 0 then Err(NegativeBufferSize)
    else if maxSequenceLength > MAX_SEQUENCE_LENGTH then Err(SequenceTooLong(maxSequenceLength, MAX_SEQUENCE_LENGTH))
    else if maxSequenceLength < 0 then Err(NegativeDimension)
    else
      var sentenceEmbeddingDimensions := [batchSize, EMBEDDING_DIMENSION];
      if meanPooling then
        var tensor := Pool(batchSize, maxSequenceLength, attentionMask, tokenEmbeddings);
        var result := if normalize then normalizeTensor(tensor) else tensor;
        Ok(Embeddings(result.data, sentenceEmbeddingDimensions))
      else if !normalize then Ok(Embeddings(sentenceEmbeddings, sentenceEmbeddingDimensions))
      else
        var tensor := SentenceTensor(sentenceEmbeddings, batchSize).value;
        Ok(Embeddings(normalizeTensor(tensor).data, sentenceEmbeddingDimensions))
  }

  /** The correction changes nothing where the source succeeds, except on
      the non-pooled normalized path, where the as-written tensor has the
      extra sequence axis: every other path returns the same embeddings. */
  lemma EmbedAgreesWithIntended(batchSize: nat, maxSequenceLength: int, meanPooling: bool, normalize: bool,
                                attentionMask: seq<int>, tokenEmbeddings: seq<real>, sentenceEmbeddings: seq<real>,
                                normalizeTensor: Tensor<real> -> Tensor<real>)
    requires maxSequenceLength >= 0 ==> |attentionMask| == batchSize * maxSequenceLength
    requires maxSequenceLength >= 0 ==> |tokenEmbeddings| == batchSize * (maxSequenceLength * EMBEDDING_DIMENSION)
    requires |sentenceEmbeddings| == batchSize * EMBEDDING_DIMENSION
    ensures meanPooling || !normalize ==>
              Embed(batchSize, maxSequenceLength, meanPooling, normalize, attentionMask, tokenEmbeddings, sentenceEmbeddings, normalizeTensor) ==
              EmbedIntended(batchSize, maxSequenceLength, meanPooling, normalize, attentionMask, tokenEmbeddings, sentenceEmbeddings, normalizeTensor)
    ensures Embed(batchSize, maxSequenceLength, meanPooling, normalize, attentionMask, tokenEmbeddings, sentenceEmbeddings, normalizeTensor).Ok? ==>
              EmbedIntended(batchSize, maxSequenceLength, meanPooling, normalize, attentionMask, tokenEmbeddings, sentenceEmbeddings, normalizeTensor).Ok?
  {
  }

  /** PoolingHelpers.MeanPooling on the buffers of this model: it cannot fail,
      since the model's buffers match the [batch, sequence] and
      [batch, sequence, 384] dims, and it yields a [batch, 384] tensor. */
  function Pool(batchSize: nat, maxSequenceLength: nat, attentionMask: seq<int>, tokenEmbeddings: seq<real>): (t: Tensor<real>)
    requires |attentionMask| == batchSize * maxSequenceLength
    requires |tokenEmbeddings| == batchSize * (maxSequenceLength * EMBEDDING_DIMENSION)
    ensures t.shape == [batchSize, EMBEDDING_DIMENSION] && |t.data| == batchSize * EMBEDDING_DIMENSION
  {
    var dims := [batchSize, maxSequenceLength, EMBEDDING_DIMENSION];
    SchemaDimensions(batchSize, maxSequenceLength);
    assert dims[..2] == [batchSize, maxSequenceLength];
    assert ShapesAgree(tokenEmbeddings, attentionMask, [batchSize, maxSequenceLength], dims);
    assert [dims[0]] + dims[2..] == [batchSize, EMBEDDING_DIMENSION];
    MeanPooling(tokenEmbeddings, attentionMask, [batchSize, maxSequenceLength], dims).value
  }

  /** The pooled embedding of sentence b at component h, without
      normalization: the masked mean of its token embeddings. */
  lemma PooledEmbeddingAt(batchSize: nat, maxSequenceLength: nat, attentionMask: seq<int>, tokenEmbeddings: seq<real>,
                          sentenceEmbeddings: seq<real>, normalizeTensor: Tensor<real> -> Tensor<real>, b: nat, h: nat)
    requires maxSequenceLength <= MAX_SEQUENCE_LENGTH
    requires |attentionMask| == batchSize * maxSequenceLength
    requires |tokenEmbeddings| == batchSize * (maxSequenceLength * EMBEDDING_DIMENSION)
    requires |sentenceEmbeddings| == batchSize * EMBEDDING_DIMENSION
    requires b < batchSize && h < EMBEDDING_DIMENSION
    ensures var r := Embed(batchSize, maxSequenceLength, true, false, attentionMask, tokenEmbeddings, sentenceEmbeddings, normalizeTensor);
              r.Ok? && 0 <= b * EMBEDDING_DIMENSION + h < |r.value.values| &&
              r.value.values[b * EMBEDDING_DIMENSION + h] ==
                PooledValue(tokenEmbeddings, attentionMask, maxSequenceLength, EMBEDDING_DIMENSION, b, h)
  {
    MeanPoolingAt(tokenEmbeddings, attentionMask, batchSize, maxSequenceLength, EMBEDDING_DIMENSION, b, h);
    MulNonNegative(batchSize, maxSequenceLength);
  }

  /** GenerateEmbeddings(sentences, maxSequenceLength, meanPooling, normalize,
      out sentenceEmbeddingDimensions). `encoding` is what the tokenizer
      writes; `tokenEmbeddings` and `sentenceEmbeddings` are what the model
      returns, of the lengths its output schema declares. */
  method GenerateEmbeddings(sentences: seq<string>, maxSequenceLength: int, meanPooling: bool, normalize: bool,
                            encoding: Encoding, tokenEmbeddings: seq<real>, sentenceEmbeddings: seq<real>,
                            normalizeTensor: Tensor<real> -> Tensor<real>)
    returns (r: Result<Embeddings>)
    requires |sentences| * maxSequenceLength >= 0 ==> encoding.Fills(|sentences| * maxSequenceLength)
    requires maxSequenceLength >= 0 ==> |tokenEmbeddings| == |sentences| * (maxSequenceLength * EMBEDDING_DIMENSION)
    requires |sentenceEmbeddings| == |sentences| * EMBEDDING_DIMENSION
    ensures r == Embed(|sentences|, maxSequenceLength, meanPooling, normalize, encoding.attentionMask,
                       tokenEmbeddings, sentenceEmbeddings, normalizeTensor)
  {
    var batchSize := |sentences|;
    var encodedCorpus :- CreateInput(sentences, maxSequenceLength, encoding);
    if maxSequenceLength > MAX_SEQUENCE_LENGTH {
      return Err(SequenceTooLong(maxSequenceLength, MAX_SEQUENCE_LENGTH));
    }
    if maxSequenceLength < 0 {
      return Err(NegativeDimension);
    }
    var encodedCorpusAttentionMask := encodedCorpus.attentionMask[..];
    var sentenceEmbeddingDimensions := [batchSize, EMBEDDING_DIMENSION];
    if meanPooling {
      var tensor := Pool(batchSize, maxSequenceLength, encodedCorpusAttentionMask, tokenEmbeddings);
      if normalize {
        tensor := normalizeTensor(tensor);
      }
      return Ok(Embeddings(tensor.data, sentenceEmbeddingDimensions));
    } else {
      if !normalize {
        return Ok(Embeddings(sentenceEmbeddings, sentenceEmbeddingDimensions));
      } else {
        var tokenEmbeddingsTensor :- SentenceTensorAsWritten(sentenceEmbeddings, batchSize, maxSequenceLength);
        r := match NormalizeTensor(tokenEmbeddingsTensor, normalizeTensor)
             case Ok(normalized) => Ok(Embeddings(normalized.data, sentenceEmbeddingDimensions))
             case Err(e) => Err(e);
      }
    }
  }

  /** The overload without flags: it pools and normalizes. */
  method GeneratePooledNormalizedEmbeddings(sentences: seq<string>, maxSequenceLength: int, encoding: Encoding,
                                            tokenEmbeddings: seq<real>, sentenceEmbeddings: seq<real>,
                                            normalizeTensor: Tensor<real> -> Tensor<real>)
    returns (r: Result<Embeddings>)
    requires |sentences| * maxSequenceLength >= 0 ==> encoding.Fills(|sentences| * maxSequenceLength)
    requires maxSequenceLength >= 0 ==> |tokenEmbeddings| == |sentences| * (maxSequenceLength * EMBEDDING_DIMENSION)
    requires |sentenceEmbeddings| == |sentences| * EMBEDDING_DIMENSION
    ensures r == Embed(|sentences|, maxSequenceLength, true, true, encoding.attentionMask,
                       tokenEmbeddings, sentenceEmbeddings, normalizeTensor)
  {
    r := GenerateEmbeddings(sentences, maxSequenceLength, true, true, encoding, tokenEmbeddings, sentenceEmbeddings, normalizeTensor);
  }
}
