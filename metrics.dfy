/** The label clean-up in front of decoding: every ignore-index entry is dropped
    from each label row before the rows go to the tokenizer's decoder. */
module Metrics {
  import opened Sequences
  import opened Labels

  /** `i[i != -100]`: the row without its sentinels, others in their order. This
      relies on the label rows being NumPy arrays, as the trainer passes them, so
      that `i != -100` is an element-wise boolean mask; on a plain Python list the
      same expression would index `i[1]` instead. */
  function StripIgnore(row: seq<int>): (r: seq<int>)
    ensures IgnoreIndex !in r
    ensures multiset(r) == multiset(row)[IgnoreIndex := 0]
  {
    Without(row, IgnoreIndex)
  }

  /** `[i[i != -100] for i in labels]`. */
  function StripLabels(labels: seq<seq<int>>): (r: seq<seq<int>>)
    ensures |r| == |labels|
    ensures forall b :: 0 <= b < |labels| ==> r[b] == StripIgnore(labels[b])
  {
    seq(|labels|, b requires 0 <= b < |labels| => StripIgnore(labels[b]))
  }

  /** Stripping works piecewise (so order is kept) and leaves a row without
      sentinels as it is. */
  lemma StripOrder(a: seq<int>, b: seq<int>)
    ensures StripIgnore(a + b) == StripIgnore(a) + StripIgnore(b)
    ensures IgnoreIndex !in a ==> StripIgnore(a) == a
  {
    WithoutAppend(a, b, IgnoreIndex);
    if IgnoreIndex !in a {
      WithoutAbsent(a, IgnoreIndex);
    }
  }

  /** Rewriting pad ids into sentinels and then stripping sentinels removes both
      the pad ids and the sentinels that were there before. */
  lemma {:induction false} RewriteThenStrip(row: seq<int>, pad: int)
    ensures StripIgnore(RewritePad(row, pad)) == Without(Without(row, pad), IgnoreIndex)
  {
    if row != [] {
      RewriteThenStrip(row[1..], pad);
      assert RewritePad(row, pad)[1..] == RewritePad(row[1..], pad);
    }
  }

  /** When the pad id is not the sentinel and the tokenized label holds no
      sentinel, rewrite-then-strip is the label with its pad ids removed. */
  lemma RewriteStripRemovesPad(row: seq<int>, pad: int)
    requires pad != IgnoreIndex && IgnoreIndex !in row
    ensures StripIgnore(RewritePad(row, pad)) == Without(row, pad)
  {
    RewriteThenStrip(row, pad);
    WithoutAbsent(Without(row, pad), IgnoreIndex);
  }

  /** A label `ids` padded with m pad ids, with neither pad ids nor sentinels among
      the ids, comes back as exactly `ids` after the rewrite and the strip. */
  lemma PaddedLabelRoundTrip(ids: seq<int>, pad: int, m: nat)
    requires pad != IgnoreIndex && pad !in ids && IgnoreIndex !in ids
    ensures StripIgnore(RewritePad(ids + Repeat(pad, m), pad)) == ids
  {
    RewriteStripRemovesPad(ids + Repeat(pad, m), pad);
    WithoutAppend(ids, Repeat(pad, m), pad);
    WithoutAbsent(ids, pad);
    RepeatMultiset(pad, m);
    assert |multiset(Without(Repeat(pad, m), pad))| == 0;
  }
}
