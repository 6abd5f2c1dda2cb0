/** Models.HuggingFace.SentenceEmbedder: the generic wrapper around an ONNX
    session. Its inputs are token buffers with one shape, handed to the
    session by name; its output is the first value the session returns. The
    session itself is a function parameter. */
module SentenceEmbedder {
  import opened Common
  import opened Tensors
  import opened Tokenizer

  const INPUT_IDS: string := "input_ids"
  const ATTENTION_MASK: string := "attention_mask"
  const TOKEN_TYPE_IDS: string := "token_type_ids"

  /** Whether an input type carries token type ids (ISentenceEmbedderInputExtended). */
  datatype InputKind = Basic | Extended

  /** The static InputNames of each input kind; the extended names add the
      token type ids to the base ones. */
  function InputNames(kind: InputKind): (names: seq<string>)
    ensures |names| >= 2 && names[..2] == [INPUT_IDS, ATTENTION_MASK]
    ensures kind.Basic? ==> |names| == 2
    ensures kind.Extended? ==> |names| == 3 && names[2] == TOKEN_TYPE_IDS
    ensures forall i, j :: 0 <= i < j < |names| ==> names[i] != names[j]
  {
    if kind.Basic? then [INPUT_IDS, ATTENTION_MASK] else [INPUT_IDS, ATTENTION_MASK, TOKEN_TYPE_IDS]
  }

  /** The two input structs; their positional constructors store the buffers
      and dimensions as given, without any check. */
  datatype Input =
    | Input(inputIDs: array<int>, attentionMask: array<int>, dimensions: seq<int>)
    | InputExtended(inputIDs: array<int>, attentionMask: array<int>, tokenTypeIDs: array<int>, dimensions: seq<int>)
  {
    function Kind(): InputKind {
      if Input? then Basic else Extended
    }
  }

  /** Input(sentences, maxSequenceLength, tokenizer): buffers of
      batchSize * maxSequenceLength slots, filled by the tokenizer, with
      dimensions [batchSize, maxSequenceLength]. A negative buffer size makes
      the allocation throw. */
  method Tokenize(sentences: seq<string>, maxSequenceLength: int, encoding: Encoding) returns (r: Result<Input>)
    requires |sentences| * maxSequenceLength >= 0 ==> encoding.Fills(|sentences| * maxSequenceLength)
    ensures r.Err? <==> |sentences| * maxSequenceLength < 0
    ensures r.Err? ==> r.error == NegativeBufferSize
    ensures r.Ok? ==> r.value.Input? && fresh(r.value.inputIDs) && fresh(r.value.attentionMask)
    ensures r.Ok? ==> r.value.inputIDs[..] == encoding.inputIDs && r.value.attentionMask[..] == encoding.attentionMask
    ensures r.Ok? ==> r.value.dimensions == [|sentences|, maxSequenceLength]
  {
    var batchSize := |sentences|;
    var bufferSize := batchSize * maxSequenceLength;
    if bufferSize < 0 {
      return Err(NegativeBufferSize);
    }
    var inputIDs := Fill(encoding.inputIDs);
    var attentionMask := Fill(encoding.attentionMask);
    return Ok(Input(inputIDs, attentionMask, [batchSize, maxSequenceLength]));
  }

  /** InputExtended(sentences, maxSequenceLength, tokenizer): the same with a
      third buffer of token type ids. */
  method TokenizeExtended(sentences: seq<string>, maxSequenceLength: int, encoding: Encoding) returns (r: Result<Input>)
    requires |sentences| * maxSequenceLength >= 0 ==> encoding.FillsExtended(|sentences| * maxSequenceLength)
    ensures r.Err? <==> |sentences| * maxSequenceLength < 0
    ensures r.Err? ==> r.error == NegativeBufferSize
    ensures r.Ok? ==> r.value.InputExtended? && fresh(r.value.inputIDs) && fresh(r.value.attentionMask) && fresh(r.value.tokenTypeIDs)
    ensures r.Ok? ==> r.value.inputIDs[..] == encoding.inputIDs && r.value.attentionMask[..] == encoding.attentionMask &&
                      r.value.tokenTypeIDs[..] == encoding.tokenTypeIDs
    ensures r.Ok? ==> r.value.dimensions == [|sentences|, maxSequenceLength]
  {
    var batchSize := |sentences|;
    var bufferSize := batchSize * maxSequenceLength;
    if bufferSize < 0 {
      return Err(NegativeBufferSize);
    }
    var inputIDs := Fill(encoding.inputIDs);
    var attentionMask := Fill(encoding.attentionMask);
    var tokenTypeIDs := Fill(encoding.tokenTypeIDs);
    return Ok(InputExtended(inputIDs, attentionMask, tokenTypeIDs, [batchSize, maxSequenceLength]));
  }

  /** NamedOnnxValue.CreateFromTensor(name, tensor). */
  datatype NamedValue = NamedValue(name: string, tensor: Tensor<int>)

  /** The named tensors the GenerateEmbeddings extensions hand to the session:
      every buffer as a DenseTensor of the input's dimensions, under the input
      names of its kind and in their order. A DenseTensor whose dimensions are
      negative or do not describe its buffer is rejected. */
  function NamedInputs(kind: InputKind, inputIDs: seq<int>, attentionMask: seq<int>, tokenTypeIDs: seq<int>,
                       dimensions: seq<int>): (r: Result<seq<NamedValue>>)
    ensures r.Ok? <==> NonNegative(dimensions) && |inputIDs| == Prod(dimensions) && |attentionMask| == Prod(dimensions) &&
                       (kind.Extended? ==> |tokenTypeIDs| == Prod(dimensions))
    ensures r.Err? ==> r.error == ShapeMismatch
    ensures r.Ok? ==> (|r.value| == |InputNames(kind)| &&
              forall i :: 0 <= i < |r.value| ==> r.value[i].name == InputNames(kind)[i] && r.value[i].tensor.shape == dimensions)
    ensures r.Ok? ==> r.value[0].tensor.data == inputIDs && r.value[1].tensor.data == attentionMask &&
                      (kind.Extended? ==> r.value[2].tensor.data == tokenTypeIDs)
  {
    var inputIDsTensor :- FromArray(inputIDs, dimensions);
    var attentionMaskTensor :- FromArray(attentionMask, dimensions);
    var base := [NamedValue(INPUT_IDS, inputIDsTensor), NamedValue(ATTENTION_MASK, attentionMaskTensor)];
    if kind.Basic? then Ok(base)
    else
      var tokenTypeIDsTensor :- FromArray(tokenTypeIDs, dimensions);
      Ok(base + [NamedValue(TOKEN_TYPE_IDS, tokenTypeIDsTensor)])
  }

  /** What the tokenizing constructors build is always accepted as tensors,
      provided the sequence length is not negative (an empty batch with a
      negative length allocates empty buffers but has a negative dimension). */
  lemma TokenizedInputAccepted(kind: InputKind, batchSize: nat, maxSequenceLength: int, encoding: Encoding)
    requires maxSequenceLength >= 0
    requires kind.Basic? ==> encoding.Fills(batchSize * maxSequenceLength)
    requires kind.Extended? ==> encoding.FillsExtended(batchSize * maxSequenceLength)
    ensures NamedInputs(kind, encoding.inputIDs, encoding.attentionMask, encoding.tokenTypeIDs,
                        [batchSize, maxSequenceLength]).Ok?
  {
    ProdTwo(batchSize, maxSequenceLength);
  }

  /** The empty batch with a negative sequence length: the buffers are
      allocated, but the tensors are not. */
  lemma NegativeLengthRejected(encoding: Encoding)
    requires encoding.Fills(0)
    ensures NamedInputs(Basic, encoding.inputIDs, encoding.attentionMask, encoding.tokenTypeIDs, [0, -1]).Err?
  {
    assert [0, -1][1] < 0;
  }

  /** LastHiddenStateOutput.OutputNames. */
  const LAST_HIDDEN_STATE_OUTPUT_NAMES: seq<string> := ["last_hidden_state"]

  /** LastHiddenStateOutput: the flattened last hidden state. */
  datatype LastHiddenStateOutput = LastHiddenStateOutput(lastHiddenState: seq<real>)

  /** PopulateOutput: the elements of the first value the session returned;
      reading output[0] of an empty collection throws. */
  function PopulateOutput(output: seq<seq<real>>): (r: Result<LastHiddenStateOutput>)
    ensures r.Ok? <==> |output| >= 1
    ensures r.Ok? ==> r.value.lastHiddenState == output[0]
    ensures r.Err? ==> r.error == IndexOutOfRange
  {
    if |output| == 0 then Err(IndexOutOfRange) else Ok(LastHiddenStateOutput(output[0]))
  }

  /** A session run: the named inputs and the requested output names give the
      elements of each requested output, in order. */
  type Session = (seq<NamedValue>, seq<string>) -> seq<seq<real>>

  /** SentenceEmbedder<InputT, LastHiddenStateOutput>. `inputKind` is
      IS_EXTENDED_INPUT; the session is passed to each run. */
  class Embedder {
    const inputKind: InputKind
    const outputNames: seq<string>

    /** The constructor: the output names come from the output type, and the
        debug assertion demands that they are the session's output names. */
    constructor(inputKind: InputKind, sessionOutputNames: seq<string>)
      requires sessionOutputNames == LAST_HIDDEN_STATE_OUTPUT_NAMES
      ensures this.inputKind == inputKind && outputNames == sessionOutputNames
    {
      this.inputKind := inputKind;
      outputNames := LAST_HIDDEN_STATE_OUTPUT_NAMES;
    }

    /** GenerateEmbeddings(values): one run asking for the declared output
        names, whose first output becomes the last hidden state. A session
        returns one value per requested name. */
    method GenerateEmbeddings(values: seq<NamedValue>, run: Session) returns (output: LastHiddenStateOutput)
      requires |run(values, outputNames)| == |outputNames| == 1
      ensures Ok(output) == PopulateOutput(run(values, outputNames))
    {
      var runResult := run(values, outputNames);
      output := LastHiddenStateOutput(runResult[0]);
    }
  }

  /** The GenerateEmbeddings extensions on an input: both overloads, chosen by
      the input's kind, which is the embedder's. */
  function Embedding(kind: InputKind, inputIDs: seq<int>, attentionMask: seq<int>, tokenTypeIDs: seq<int>,
                     dimensions: seq<int>, run: Session, outputNames: seq<string>): (r: Result<LastHiddenStateOutput>)
    requires NamedInputs(kind, inputIDs, attentionMask, tokenTypeIDs, dimensions).Ok? ==>
             |run(NamedInputs(kind, inputIDs, attentionMask, tokenTypeIDs, dimensions).value, outputNames)| >= 1
    ensures r.Ok? <==> NamedInputs(kind, inputIDs, attentionMask, tokenTypeIDs, dimensions).Ok?
    ensures r.Ok? ==> (r.value.lastHiddenState ==
              run(NamedInputs(kind, inputIDs, attentionMask, tokenTypeIDs, dimensions).value, outputNames)[0])
  {
    var values :- NamedInputs(kind, inputIDs, attentionMask, tokenTypeIDs, dimensions);
    PopulateOutput(run(values, outputNames))
  }

  method GenerateEmbeddingsFor(embedder: Embedder, input: Input, run: Session) returns (r: Result<LastHiddenStateOutput>)
    requires input.Kind() == embedder.inputKind && |embedder.outputNames| == 1
    requires var types := if input.InputExtended? then input.tokenTypeIDs[..] else [];
             var named := NamedInputs(input.Kind(), input.inputIDs[..], input.attentionMask[..], types, input.dimensions);
             named.Ok? ==> |run(named.value, embedder.outputNames)| == 1
    ensures var types := if input.InputExtended? then input.tokenTypeIDs[..] else [];
            r == Embedding(input.Kind(), input.inputIDs[..], input.attentionMask[..], types, input.dimensions,
                           run, embedder.outputNames)
  {
    var types := if input.InputExtended? then input.tokenTypeIDs[..] else [];
    var named := NamedInputs(input.Kind(), input.inputIDs[..], input.attentionMask[..], types, input.dimensions);
    if named.Err? {
      return Err(named.error);
    }
    var output := embedder.GenerateEmbeddings(named.value, run);
    return Ok(output);
  }
}
