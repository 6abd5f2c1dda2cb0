/** GTELargeENV1_5: the gte-large-en-v1.5 façade. It tokenizes into three
    [batch, sequence] buffers, runs the model, copies the hidden state of the
    first ([CLS]) token of every sentence into a [batch, 1024] buffer and
    optionally L2-normalizes it. The ONNX model is opaque: its output is a
    parameter of the length the output schema declares. */
module GTELargeENV1_5 {
  import opened Common
  import opened Tensors
  import opened Tokenizer

  const MAX_SEQUENCE_LENGTH: int := 8192
  const EMBEDDING_DIMENSION: nat := 1024

  const INPUT_IDS: string := "input_ids"
  const ATTENTION_MASK: string := "attention_mask"
  const TOKEN_TYPE_IDS: string := "token_type_ids"
  const LAST_HIDDEN_STATE: string := "last_hidden_state"

  const INPUT_COLUMN_NAMES: seq<string> := [INPUT_IDS, ATTENTION_MASK, TOKEN_TYPE_IDS]
  const OUTPUT_COLUMN_NAMES: seq<string> := [LAST_HIDDEN_STATE]

  /** The three token buffers handed to the model. */
  datatype Input = Input(inputIDs: array<int>, attentionMask: array<int>, tokenTypeIDs: array<int>)

  /** The returned embeddings and the `outputDimensions` out-parameter. */
  datatype Embeddings = Embeddings(values: seq<real>, dimensions: seq<int>)

  /** CreateInput: three buffers of batchSize * maxSequenceLength slots,
      filled by the tokenizer. A negative size makes `new long[]` throw. */
  method CreateInput(sentences: seq<string>, maxSequenceLength: int, encoding: Encoding) returns (r: Result<Input>)
    requires |sentences| * maxSequenceLength >= 0 ==> encoding.FillsExtended(|sentences| * maxSequenceLength)
    ensures r.Ok? <==> |sentences| * maxSequenceLength >= 0
    ensures r.Err? ==> r.error == NegativeBufferSize
    ensures r.Ok? ==> fresh(r.value.inputIDs) && fresh(r.value.attentionMask) && fresh(r.value.tokenTypeIDs)
    ensures r.Ok? ==> r.value.inputIDs[..] == encoding.inputIDs && r.value.attentionMask[..] == encoding.attentionMask &&
                      r.value.tokenTypeIDs[..] == encoding.tokenTypeIDs
    ensures r.Ok? ==> r.value.inputIDs.Length == r.value.attentionMask.Length == r.value.tokenTypeIDs.Length ==
                      |sentences| * maxSequenceLength
  {
    var batchSize := |sentences|;
    var bufferSize := batchSize * maxSequenceLength;
    if bufferSize < 0 {
      return Err(NegativeBufferSize);
    }
    var inputIDs := Fill(encoding.inputIDs);
    var attentionMask := Fill(encoding.attentionMask);
    var tokenTypeIDs := Fill(encoding.tokenTypeIDs);
    return Ok(Input(inputIDs, attentionMask, tokenTypeIDs));
  }

  /** The shape dictionary: every input column gets the one dims array
      [batchSize, maxSequenceLength], whose element count is the buffer size. */
  function InputShape(batchSize: int, maxSequenceLength: int): (shape: map<string, seq<int>>)
    ensures shape.Keys == {INPUT_IDS, ATTENTION_MASK, TOKEN_TYPE_IDS}
    ensures forall name :: name in shape ==>
              shape[name] == [batchSize, maxSequenceLength] && Prod(shape[name]) == batchSize * maxSequenceLength
  {
    var inputIDsDimensions := [batchSize, maxSequenceLength];
    ProdTwo(batchSize, maxSequenceLength);
    map[INPUT_IDS := inputIDsDimensions, ATTENTION_MASK := inputIDsDimensions, TOKEN_TYPE_IDS := inputIDsDimensions]
  }

  /** Position in a [batch, S, 1024] hidden state of element k of the
      [batch, 1024] result: token 0 of sentence k / 1024, component k % 1024. */
  function ClsIndex(S: nat, k: nat): nat {
    (k / EMBEDDING_DIMENSION) * (S * EMBEDDING_DIMENSION) + k % EMBEDDING_DIMENSION
  }

  /** Component d of token j of sentence b of a [batch, S, 1024] hidden
      state (0 outside the buffer). */
  function HiddenAt(hidden: seq<real>, S: nat, b: nat, j: nat, d: nat): real {
    var k := (b * S + j) * EMBEDDING_DIMENSION + d;
    if k < |hidden| then hidden[k] else 0.0
  }

  lemma ClsIndexOf(B: nat, S: nat, b: nat, d: nat)
    requires b < B && S >= 1 && d < EMBEDDING_DIMENSION
    ensures ClsIndex(S, b * EMBEDDING_DIMENSION + d) == b * S * EMBEDDING_DIMENSION + d
    ensures ClsIndex(S, b * EMBEDDING_DIMENSION + d) == (b * S + 0) * EMBEDDING_DIMENSION + d
    ensures ClsIndex(S, b * EMBEDDING_DIMENSION + d) < B * (S * EMBEDDING_DIMENSION)
  {
    DivModOf(b, EMBEDDING_DIMENSION, d);
    MulAssoc(b, S, EMBEDDING_DIMENSION);
    IndexInRange(B, S, EMBEDDING_DIMENSION, b, 0, d);
  }

  /** Element k of the result lies in row k / 1024 at column k % 1024. */
  lemma RowColumn(B: nat, k: nat)
    requires k < B * EMBEDDING_DIMENSION
    ensures k / EMBEDDING_DIMENSION < B && k == (k / EMBEDDING_DIMENSION) * EMBEDDING_DIMENSION + k % EMBEDDING_DIMENSION
  {
    DivBelow(k, B, EMBEDDING_DIMENSION);
  }

  /** The [batch, 1024] buffer of the first token's hidden state of each
      sentence. */
  function ClsRows(hidden: seq<real>, B: nat, S: nat): (rows: seq<real>)
    requires B == 0 || S >= 1
    requires |hidden| == B * (S * EMBEDDING_DIMENSION)
    ensures |rows| == B * EMBEDDING_DIMENSION
    ensures forall k :: 0 <= k < |rows| ==> ClsIndex(S, k) < |hidden| && rows[k] == hidden[ClsIndex(S, k)]
  {
    seq(B * EMBEDDING_DIMENSION, k requires 0 <= k < B * EMBEDDING_DIMENSION =>
      RowColumn(B, k);
      ClsIndexOf(B, S, k / EMBEDDING_DIMENSION, k % EMBEDDING_DIMENSION);
      hidden[ClsIndex(S, k)])
  }

  /** Row b, column d of the result is lastHiddenState[b * S * 1024 + d]. */
  lemma ClsRowAt(hidden: seq<real>, B: nat, S: nat, b: nat, d: nat)
    requires S >= 1 && |hidden| == B * (S * EMBEDDING_DIMENSION) && b < B && d < EMBEDDING_DIMENSION
    ensures b * EMBEDDING_DIMENSION + d < B * EMBEDDING_DIMENSION && b * S * EMBEDDING_DIMENSION + d < |hidden|
    ensures ClsRows(hidden, B, S)[b * EMBEDDING_DIMENSION + d] == hidden[b * S * EMBEDDING_DIMENSION + d]
    ensures ClsRows(hidden, B, S)[b * EMBEDDING_DIMENSION + d] == HiddenAt(hidden, S, b, 0, d)
  {
    RowIndexInRange(B, EMBEDDING_DIMENSION, b, d);
    ClsIndexOf(B, S, b, d);
  }

  /** Hidden states of the tokens after the first never reach the result:
      two hidden states with the same first-token rows give the same result. */
  lemma OnlyFirstTokenRead(h1: seq<real>, h2: seq<real>, B: nat, S: nat)
    requires S >= 1 && |h1| == |h2| == B * (S * EMBEDDING_DIMENSION)
    requires forall b, d :: 0 <= b < B && 0 <= d < EMBEDDING_DIMENSION ==> HiddenAt(h1, S, b, 0, d) == HiddenAt(h2, S, b, 0, d)
    ensures ClsRows(h1, B, S) == ClsRows(h2, B, S)
  {
    forall k | 0 <= k < B * EMBEDDING_DIMENSION
      ensures ClsRows(h1, B, S)[k] == ClsRows(h2, B, S)[k]
    {
      var b, d := k / EMBEDDING_DIMENSION, k % EMBEDDING_DIMENSION;
      RowColumn(B, k);
      ClsRowAt(h1, B, S, b, d);
      ClsRowAt(h2, B, S, b, d);
    }
  }

  /** Every slot of the result is written by exactly one (batchIndex,
      dimensionIndex) pair of the loops. */
  lemma SlotsDistinct(b1: nat, d1: nat, b2: nat, d2: nat)
    requires d1 < EMBEDDING_DIMENSION && d2 < EMBEDDING_DIMENSION
    requires b1 * EMBEDDING_DIMENSION + d1 == b2 * EMBEDDING_DIMENSION + d2
    ensures b1 == b2 && d1 == d2
  {
    DivModOf(b1, EMBEDDING_DIMENSION, d1);
    DivModOf(b2, EMBEDDING_DIMENSION, d2);
  }

  /** The nested batchIndex / dimensionIndex loops: copies token 0 of every
      sentence into a fresh [batch, 1024] buffer. With a zero sequence length
      and a non-empty batch the first read is out of range. */
  method GatherClsRows(lastHiddenState: array<real>, batchSize: nat, maxSequenceLength: nat) returns (r: Result<array<real>>)
    requires lastHiddenState.Length == batchSize * (maxSequenceLength * EMBEDDING_DIMENSION)
    ensures r.Ok? <==> batchSize == 0 || maxSequenceLength >= 1
    ensures r.Err? ==> r.error == IndexOutOfRange
    ensures r.Ok? ==> fresh(r.value) && r.value[..] == ClsRows(lastHiddenState[..], batchSize, maxSequenceLength)
  {
    var embeddings := new real[batchSize * EMBEDDING_DIMENSION];
    if batchSize > 0 && maxSequenceLength == 0 {
      // The first read, lastHiddenState[0], is past the end of an empty buffer.
      assert lastHiddenState.Length == 0;
      return Err(IndexOutOfRange);
    }
    for batchIndex := 0 to batchSize
      invariant forall k :: 0 <= k < batchIndex * EMBEDDING_DIMENSION ==>
                  ClsIndex(maxSequenceLength, k) < lastHiddenState.Length &&
                  embeddings[k] == lastHiddenState[ClsIndex(maxSequenceLength, k)]
    {
      MulLeft(batchIndex + 1, batchSize, EMBEDDING_DIMENSION);
      for dimensionIndex := 0 to EMBEDDING_DIMENSION
        invariant forall k :: 0 <= k < batchIndex * EMBEDDING_DIMENSION + dimensionIndex ==>
                    ClsIndex(maxSequenceLength, k) < lastHiddenState.Length &&
                    embeddings[k] == lastHiddenState[ClsIndex(maxSequenceLength, k)]
      {
        ClsIndexOf(batchSize, maxSequenceLength, batchIndex, dimensionIndex);
        embeddings[batchIndex * EMBEDDING_DIMENSION + dimensionIndex] :=
          lastHiddenState[batchIndex * maxSequenceLength * EMBEDDING_DIMENSION + dimensionIndex];
      }
    }
    return Ok(embeddings);
  }

  /** What GenerateEmbeddings returns, in the order the source fails:
      tokenizing first (a negative buffer size), then the maximum-length
      check, then the schema (a negative dimension), then the gather loop.
      `normalizeTensor` is what TorchHelpers.NormalizeTensor computes along
      axis 1 on the rank-2 pooled tensor, which it can expand its norms over. */
  function Embed(batchSize: nat, maxSequenceLength: int, normalize: bool, lastHiddenState: seq<real>,
                 normalizeTensor: Tensor<real> -> Tensor<real>): (r: Result<Embeddings>)
    requires maxSequenceLength >= 0 ==> |lastHiddenState| == batchSize * (maxSequenceLength * EMBEDDING_DIMENSION)
    ensures r.Ok? <==> 0 <= maxSequenceLength <= MAX_SEQUENCE_LENGTH && (batchSize == 0 || maxSequenceLength >= 1)
    ensures batchSize * maxSequenceLength >= 0 && maxSequenceLength > MAX_SEQUENCE_LENGTH ==>
              r == Err(SequenceTooLong(maxSequenceLength, MAX_SEQUENCE_LENGTH))
    ensures r.Ok? ==> r.value.dimensions == [batchSize, EMBEDDING_DIMENSION]
    ensures r.Ok? && !normalize ==>
              |r.value.values| == Prod(r.value.dimensions) &&
              r.value.values == ClsRows(lastHiddenState, batchSize, maxSequenceLength)
    ensures r.Ok? && normalize ==>
              r.value.values == normalizeTensor(Tensor(ClsRows(lastHiddenState, batchSize, maxSequenceLength),
                                                       [batchSize, EMBEDDING_DIMENSION])).data
  {
    if batchSize * maxSequenceLength < 0 then Err(NegativeBufferSize)
    else if maxSequenceLength > MAX_SEQUENCE_LENGTH then Err(SequenceTooLong(maxSequenceLength, MAX_SEQUENCE_LENGTH))
    else if maxSequenceLength < 0 then Err(NegativeDimension)
    else if batchSize > 0 && maxSequenceLength == 0 then Err(IndexOutOfRange)
    else
      var embeddings := ClsRows(lastHiddenState, batchSize, maxSequenceLength);
      var outputDimensions := [batchSize, EMBEDDING_DIMENSION];
      ProdTwo(batchSize, EMBEDDING_DIMENSION);
      if !normalize then Ok(Embeddings(embeddings, outputDimensions))
      else Ok(Embeddings(normalizeTensor(Tensor(embeddings, outputDimensions)).data, outputDimensions))
  }

  /** GenerateEmbeddings(sentences, maxSequenceLength, normalize, out
      outputDimensions). `encoding` is what the tokenizer writes and
      `lastHiddenState` what the model returns, of the length its output
      schema [batch, maxSequenceLength, 1024] declares. */
  method GenerateEmbeddings(sentences: seq<string>, maxSequenceLength: int, normalize: bool, encoding: Encoding,
                            lastHiddenState: array<real>, normalizeTensor: Tensor<real> -> Tensor<real>)
    returns (r: Result<Embeddings>)
    requires |sentences| * maxSequenceLength >= 0 ==> encoding.FillsExtended(|sentences| * maxSequenceLength)
    requires maxSequenceLength >= 0 ==> lastHiddenState.Length == |sentences| * (maxSequenceLength * EMBEDDING_DIMENSION)
    ensures r == Embed(|sentences|, maxSequenceLength, normalize, lastHiddenState[..], normalizeTensor)
  {
    var batchSize := |sentences|;
    var encodedCorpus :- CreateInput(sentences, maxSequenceLength, encoding);
    if maxSequenceLength > MAX_SEQUENCE_LENGTH {
      return Err(SequenceTooLong(maxSequenceLength, MAX_SEQUENCE_LENGTH));
    }
    if maxSequenceLength < 0 {
      return Err(NegativeDimension);
    }
    var inputShape := InputShape(batchSize, maxSequenceLength);
    var embeddings :- GatherClsRows(lastHiddenState, batchSize, maxSequenceLength);
    var outputDimensions := [batchSize, EMBEDDING_DIMENSION];
    if !normalize {
      return Ok(Embeddings(embeddings[..], outputDimensions));
    } else {
      var tokenEmbeddingsTensor := Tensor(embeddings[..], outputDimensions);
      return Ok(Embeddings(normalizeTensor(tokenEmbeddingsTensor).data, outputDimensions));
    }
  }

  /** The overload without `normalize`: it normalizes. */
  method GenerateNormalizedEmbeddings(sentences: seq<string>, maxSequenceLength: int, encoding: Encoding,
                                      lastHiddenState: array<real>, normalizeTensor: Tensor<real> -> Tensor<real>)
    returns (r: Result<Embeddings>)
    requires |sentences| * maxSequenceLength >= 0 ==> encoding.FillsExtended(|sentences| * maxSequenceLength)
    requires maxSequenceLength >= 0 ==> lastHiddenState.Length == |sentences| * (maxSequenceLength * EMBEDDING_DIMENSION)
    ensures r == Embed(|sentences|, maxSequenceLength, true, lastHiddenState[..], normalizeTensor)
  {
    r := GenerateEmbeddings(sentences, maxSequenceLength, true, encoding, lastHiddenState, normalizeTensor);
  }
}
