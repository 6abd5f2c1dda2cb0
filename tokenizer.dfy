/** The part of BertTokenizer.Encode that the models rely on: it writes one
    value into every slot of the buffers it is handed. Its vocabulary and
    word-piece algorithm are not part of this model, so the values it writes
    are a parameter. */
module Tokenizer {

  /** The values Encode writes: token ids, attention mask (1 for a token,
      0 for padding) and token type ids, one per buffer slot. */
  datatype Encoding = Encoding(inputIDs: seq<int>, attentionMask: seq<int>, tokenTypeIDs: seq<int>) {
    /** Encode(sentences, inputIDs, attentionMask, maxSequenceLength) on
        buffers of `bufferSize` slots. */
    predicate Fills(bufferSize: int) {
      |inputIDs| == bufferSize && |attentionMask| == bufferSize
    }

    /** The overload that also writes token type ids. */
    predicate FillsExtended(bufferSize: int) {
      Fills(bufferSize) && |tokenTypeIDs| == bufferSize
    }
  }

  /** `new long[values.Length]` followed by Encode writing `values` into it. */
  method Fill(values: seq<int>) returns (buffer: array<int>)
    ensures fresh(buffer) && buffer[..] == values
  {
    buffer := new int[|values|];
    forall k | 0 <= k < |values| {
      buffer[k] := values[k];
    }
  }
}
