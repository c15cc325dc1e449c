/** Right padding of one mapped codebook row and the 0/1 attention mask that
    goes with it. */
module Padding {
  import opened Sequences

  /** `max_len`: every row is padded up to this length. */
  const MaxLen: int := 1023

  /** `seq + [pad] * (max_len - len(seq))`: rows up to MaxLen are filled with pad to
      exactly MaxLen; a longer row keeps its length and is not truncated. */
  function PadRow(row: seq<int>, pad: int): seq<int>
  {
    row + Repeat(pad, MaxLen - |row|)
  }

  lemma PadRowShape(row: seq<int>, pad: int)
    ensures |row| <= MaxLen ==> |PadRow(row, pad)| == MaxLen
    ensures |row| > MaxLen ==> PadRow(row, pad) == row
    ensures PadRow(row, pad)[..|row|] == row
    ensures forall k :: |row| <= k < |PadRow(row, pad)| ==> PadRow(row, pad)[k] == pad
  {
  }

  /** `[1] * n + [0] * (max_len - n)` for a row of length n. */
  function Mask(n: nat): seq<int>
  {
    Repeat(1, n) + Repeat(0, MaxLen - n)
  }

  /** The mask has length MaxLen for rows that fit (n otherwise), and position k
      is 1 exactly when it holds one of the row's n real frames. */
  lemma MaskShape(n: nat)
    ensures |Mask(n)| == if n <= MaxLen then MaxLen else n
    ensures forall k :: 0 <= k < |Mask(n)| ==> (Mask(n)[k] == 1 <==> k < n) && (Mask(n)[k] == 0 <==> k >= n)
  {
  }

  /** The mask holds exactly n ones, and MaxLen - n zeros when the row fits. */
  lemma MaskCounts(n: nat)
    ensures multiset(Mask(n))[1] == n
    ensures multiset(Mask(n))[0] == if n <= MaxLen then MaxLen - n else 0
  {
    RepeatMultiset(1, n);
    RepeatMultiset(0, MaxLen - n);
  }

  /** Different row lengths give different masks, so the stored mask tells which
      row it was built from when the rows of an example differ in length. */
  lemma MaskInjective(n: nat, m: nat)
    ensures Mask(n) == Mask(m) <==> n == m
  {
    MaskCounts(n);
    MaskCounts(m);
  }

  /** A padded row and the mask of its length line up: same length, and the mask
      is 1 on the original entries and 0 exactly where pad was added. */
  lemma MaskMatchesPadding(row: seq<int>, pad: int)
    ensures |Mask(|row|)| == |PadRow(row, pad)|
    ensures forall k :: 0 <= k < |row| ==> Mask(|row|)[k] == 1 && PadRow(row, pad)[k] == row[k]
    ensures forall k :: |row| <= k < |PadRow(row, pad)| ==> Mask(|row|)[k] == 0 && PadRow(row, pad)[k] == pad
  {
    MaskShape(|row|);
  }
}
