/** Label building: every label entry equal to the tokenizer's pad id becomes
    the ignore index -100, so that it contributes no loss. */
module Labels {
  import opened Sequences

  /** The sentinel that the loss and the decoder skip. */
  const IgnoreIndex: int := -100

  /** `[-100 if token_id == pad_token_id else token_id for token_id in seq]`. */
  function RewritePad(row: seq<int>, pad: int): (r: seq<int>)
    ensures |r| == |row|
    ensures forall k :: 0 <= k < |row| && row[k] == pad ==> r[k] == IgnoreIndex
    ensures forall k :: 0 <= k < |row| && row[k] != pad ==> r[k] == row[k]
  {
    seq(|row|, k requires 0 <= k < |row| => if row[k] == pad then IgnoreIndex else row[k])
  }

  /** The rewrite of trainer_encodec_asr.py:54 applied to every row of the batch. */
  function RewriteLabels(labels: seq<seq<int>>, pad: int): (r: seq<seq<int>>)
    ensures |r| == |labels|
    ensures forall b :: 0 <= b < |labels| ==> r[b] == RewritePad(labels[b], pad)
  {
    seq(|labels|, b requires 0 <= b < |labels| => RewritePad(labels[b], pad))
  }

  /** After the rewrite no pad id is left (unless pad is the sentinel itself), and
      the sentinel occurs once per pad id and per sentinel already there. */
  lemma {:induction false} RewriteCounts(row: seq<int>, pad: int)
    requires pad != IgnoreIndex
    ensures pad !in RewritePad(row, pad)
    ensures multiset(RewritePad(row, pad))[IgnoreIndex] == multiset(row)[pad] + multiset(row)[IgnoreIndex]
    ensures forall x :: x != pad && x != IgnoreIndex ==> multiset(RewritePad(row, pad))[x] == multiset(row)[x]
  {
    if row != [] {
      var r := RewritePad(row, pad);
      RewriteCounts(row[1..], pad);
      assert r == [r[0]] + RewritePad(row[1..], pad);
      assert row == [row[0]] + row[1..];
    }
  }

  /** Rewriting twice is the same as rewriting once. */
  lemma RewriteIdempotent(row: seq<int>, pad: int)
    ensures RewritePad(RewritePad(row, pad), pad) == RewritePad(row, pad)
  {
  }

  /** The rewrite picks entries by value. For a tokenized label `ids` padded with m
      pad ids, it turns exactly the padding into sentinels if and only if the pad
      id does not occur among the ids themselves. */
  lemma RewritePaddedLabel(ids: seq<int>, pad: int, m: nat)
    requires pad != IgnoreIndex
    ensures RewritePad(ids + Repeat(pad, m), pad) == ids + Repeat(IgnoreIndex, m) <==> pad !in ids
  {
    var r := RewritePad(ids + Repeat(pad, m), pad);
    if pad in ids {
      var k :| 0 <= k < |ids| && ids[k] == pad;
      assert (ids + Repeat(IgnoreIndex, m))[k] == pad;
    }
  }
}
