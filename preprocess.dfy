/** The per-batch transform that turns raw examples into model inputs, and the
    length filter applied to examples before it. */
module Preprocess {
  import opened Units
  import opened Padding
  import opened Labels

  /** Examples whose codebook-0 stream is longer than this are dropped. */
  const LengthBudget: int := 1000

  /** A batch as the dataset hands it over, column by column: `text[b]` is the
      transcript of example b and `encodec[i][b]` the raw stream of codebook i
      (the column `encodec_i`) for example b. */
  datatype Batch = Batch(text: seq<string>, encodec: seq<seq<seq<int>>>)

  /** The tokenizer as this code uses it: the lookup of one token name
      (`convert_tokens_to_ids`, unknown-token fallback included) and the pad id. */
  datatype Tokenizer = Tokenizer(convertTokenToId: string -> int, padTokenId: int)

  /** The fields the transform adds to the batch. */
  datatype ModelInputs = ModelInputs(labels: seq<seq<int>>, inputIds: seq<seq<seq<int>>>, attentionMask: seq<seq<int>>)

  /** A batch has the 8 codebook columns, each with one stream per example. */
  predicate WellFormed(batch: Batch)
  {
    |batch.encodec| == CodebookCount &&
    forall i :: 0 <= i < CodebookCount ==> |batch.encodec[i]| == |batch.text|
  }

  /** The codebook streams of example b all have the same number of frames. */
  predicate Lockstep(batch: Batch, b: int)
    requires WellFormed(batch) && 0 <= b < |batch.text|
  {
    forall i :: 0 <= i < CodebookCount ==> |batch.encodec[i][b]| == |batch.encodec[0][b]|
  }

  /** `filter_examples`: keep an example iff its codebook-0 stream has at most 1000 frames. */
  function KeepExample(encodec0: seq<int>): bool
  {
    |encodec0| <= LengthBudget
  }

  /** The budget itself is kept; one frame more is dropped. */
  lemma KeepExampleBoundary(s: seq<int>)
    ensures |s| == LengthBudget ==> KeepExample(s)
    ensures |s| == LengthBudget + 1 ==> !KeepExample(s)
  {
  }

  /** For a kept example in lockstep, all 8 padded rows and the mask have length
      exactly MaxLen, and the mask is 1 exactly on the real frames of every row. */
  lemma KeptExampleShape(batch: Batch, tok: Tokenizer, b: int)
    requires WellFormed(batch) && 0 <= b < |batch.text|
    requires KeepExample(batch.encodec[0][b]) && Lockstep(batch, b)
    ensures forall i :: 0 <= i < CodebookCount ==>
      |PadRow(MapCodebook(tok.convertTokenToId, i, batch.encodec[i][b]), tok.padTokenId)| == MaxLen
    ensures |Mask(|batch.encodec[CodebookCount - 1][b]|)| == MaxLen
    ensures forall i, k :: 0 <= i < CodebookCount && 0 <= k < |batch.encodec[i][b]| ==>
      Mask(|batch.encodec[CodebookCount - 1][b]|)[k] == 1 &&
      PadRow(MapCodebook(tok.convertTokenToId, i, batch.encodec[i][b]), tok.padTokenId)[k]
        == MapCodebook(tok.convertTokenToId, i, batch.encodec[i][b])[k]
    ensures forall i, k :: 0 <= i < CodebookCount && 0 <= k < MaxLen && Mask(|batch.encodec[CodebookCount - 1][b]|)[k] == 0 ==>
      PadRow(MapCodebook(tok.convertTokenToId, i, batch.encodec[i][b]), tok.padTokenId)[k] == tok.padTokenId
  {
    MaskShape(|batch.encodec[CodebookCount - 1][b]|);
  }

  /** The filter reads codebook 0 only, so a kept example's codebook-0 row pads
      to exactly MaxLen whatever the other streams hold. */
  lemma KeptCodebookZeroShape(batch: Batch, tok: Tokenizer, b: int)
    requires WellFormed(batch) && 0 <= b < |batch.text|
    requires KeepExample(batch.encodec[0][b])
    ensures |PadRow(MapCodebook(tok.convertTokenToId, 0, batch.encodec[0][b]), tok.padTokenId)| == MaxLen
  {
    PadRowShape(MapCodebook(tok.convertTokenToId, 0, batch.encodec[0][b]), tok.padTokenId);
  }

  /** Without lockstep the filter does not bound the stored mask: a kept
      codebook-0 stream may go with a codebook-7 stream longer than MaxLen,
      whose mask is then longer than MaxLen too. */
  lemma KeptExampleLongMask()
    ensures exists s0: seq<int>, s7: seq<int> :: KeepExample(s0) && |Mask(|s7|)| > MaxLen
  {
    var s7: seq<int> := seq(MaxLen + 1, _ => 0);
    MaskShape(|s7|);
    assert KeepExample([]) && |Mask(|s7|)| > MaxLen;
  }

  /** trainer_encodec_asr.py:57-63: for every example, the 8 codebook streams mapped to vocabulary ids. */
  method MapUnits(batch: Batch, vocab: string -> int) returns (inputDatas: seq<seq<seq<int>>>)
    requires WellFormed(batch)
    ensures |inputDatas| == |batch.text|
    ensures forall b :: 0 <= b < |inputDatas| ==> |inputDatas[b]| == CodebookCount
    ensures forall b, i :: 0 <= b < |inputDatas| && 0 <= i < CodebookCount ==>
      |inputDatas[b][i]| == |batch.encodec[i][b]|
    ensures forall b, i, k :: 0 <= b < |inputDatas| && 0 <= i < CodebookCount && 0 <= k < |inputDatas[b][i]| ==>
      inputDatas[b][i][k] == vocab(UnitToken(UnitKey(i, batch.encodec[i][b][k])))
  {
    inputDatas := [];
    for b := 0 to |batch.text|
      invariant |inputDatas| == b
      invariant forall b' :: 0 <= b' < b ==> |inputDatas[b']| == CodebookCount
      invariant forall b', i :: 0 <= b' < b && 0 <= i < CodebookCount ==>
        inputDatas[b'][i] == MapCodebook(vocab, i, batch.encodec[i][b'])
    {
      var encodecInput: seq<seq<int>> := [];
      for i := 0 to CodebookCount
        invariant |encodecInput| == i
        invariant forall i' :: 0 <= i' < i ==> encodecInput[i'] == MapCodebook(vocab, i', batch.encodec[i'][b])
      {
        encodecInput := encodecInput + [MapCodebook(vocab, i, batch.encodec[i][b])];
      }
      inputDatas := inputDatas + [encodecInput];
    }
  }

  /** paddedInputData is inputData with every row padded by PadRow, and mask is
      the mask of its last row. */
  ghost predicate PaddedExample(inputData: seq<seq<int>>, pad: int, paddedInputData: seq<seq<int>>, mask: seq<int>)
  {
    |inputData| > 0 &&
    |paddedInputData| == |inputData| &&
    (forall i :: 0 <= i < |inputData| ==> paddedInputData[i] == PadRow(inputData[i], pad)) &&
    mask == Mask(|inputData[|inputData| - 1]|)
  }

  /** trainer_encodec_asr.py:68-73: the rows of one example padded to MaxLen. The
      mask variable is overwritten for every row, so what is left in it after the
      loop is the mask of the example's LAST row. */
  method PadExample(inputData: seq<seq<int>>, pad: int) returns (paddedInputData: seq<seq<int>>, mask: seq<int>)
    requires |inputData| > 0
    ensures |paddedInputData| == |inputData|
    ensures forall i :: 0 <= i < |inputData| ==> paddedInputData[i] == PadRow(inputData[i], pad)
    ensures mask == Mask(|inputData[|inputData| - 1]|)
  {
    paddedInputData := [];
    mask := [];
    var seqLen: nat := 0;
    for i := 0 to |inputData|
      invariant |paddedInputData| == i
      invariant forall i' :: 0 <= i' < i ==> paddedInputData[i'] == PadRow(inputData[i'], pad)
      invariant i > 0 ==> seqLen == |inputData[i - 1]| && mask == Mask(seqLen)
    {
      var row := inputData[i];
      seqLen := |row|;
      var paddedRow := PadRow(row, pad);
      mask := Mask(seqLen);
      paddedInputData := paddedInputData + [paddedRow];
    }
  }

  /** trainer_encodec_asr.py:65-75: every row of every example padded to MaxLen,
      and one mask per example, the mask of its last row. */
  method PadAndMask(inputDatas: seq<seq<seq<int>>>, pad: int) returns (padded: seq<seq<seq<int>>>, masks: seq<seq<int>>)
    requires forall b :: 0 <= b < |inputDatas| ==> |inputDatas[b]| > 0
    ensures |padded| == |inputDatas| && |masks| == |inputDatas|
    ensures forall b :: 0 <= b < |inputDatas| ==> PaddedExample(inputDatas[b], pad, padded[b], masks[b])
  {
    padded, masks := [], [];
    for b := 0 to |inputDatas|
      invariant |padded| == b && |masks| == b
      invariant forall b' :: 0 <= b' < b ==> PaddedExample(inputDatas[b'], pad, padded[b'], masks[b'])
    {
      var paddedInputData, mask := PadExample(inputDatas[b], pad);
      padded := padded + [paddedInputData];
      masks := masks + [mask];
    }
  }

  /** `process_data_to_model_inputs`, given the tokenizer's output for the batch's
      texts (`tokenizedLabels`, trainer_encodec_asr.py:52). */
  method ProcessDataToModelInputs(batch: Batch, tokenizedLabels: seq<seq<int>>, tok: Tokenizer)
    returns (out: ModelInputs)
    requires WellFormed(batch)
    requires |tokenizedLabels| == |batch.text|
    ensures |out.labels| == |batch.text|
    ensures out.labels == RewriteLabels(tokenizedLabels, tok.padTokenId)
    ensures |out.inputIds| == |batch.text| && |out.attentionMask| == |batch.text|
    ensures forall b :: 0 <= b < |batch.text| ==> |out.inputIds[b]| == CodebookCount
    ensures forall b, i :: 0 <= b < |batch.text| && 0 <= i < CodebookCount ==>
      out.inputIds[b][i] == PadRow(MapCodebook(tok.convertTokenToId, i, batch.encodec[i][b]), tok.padTokenId)
    ensures forall b :: 0 <= b < |batch.text| ==>
      out.attentionMask[b] == Mask(|batch.encodec[CodebookCount - 1][b]|)
  {
    var labels := RewriteLabels(tokenizedLabels, tok.padTokenId);
    var inputDatas := MapUnits(batch, tok.convertTokenToId);
    var padded, masks := PadAndMask(inputDatas, tok.padTokenId);
    forall b, i | 0 <= b < |batch.text| && 0 <= i < CodebookCount
      ensures inputDatas[b][i] == MapCodebook(tok.convertTokenToId, i, batch.encodec[i][b])
      ensures padded[b][i] == PadRow(inputDatas[b][i], tok.padTokenId)
    {
      assert PaddedExample(inputDatas[b], tok.padTokenId, padded[b], masks[b]);
    }
    out := ModelInputs(labels, padded, masks);
  }
}
