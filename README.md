# EnCodec ASR preprocessing, modelled in Dafny

This project models the data preparation of `trainer_encodec_asr.py`, which trains a
sequence-to-sequence model to turn EnCodec audio codes into text. Each example has
8 parallel streams of raw quantizer indices (`encodec_0` … `encodec_7`) and a
transcript. The preprocessing:

- maps raw index `u` of codebook `i` to the vocabulary token `v_tok_{u + i*1000}`,
  so the 8 codebooks share one vocabulary in disjoint blocks of 1000 keys, provided
  every raw index is below 1000, which the code does not check;
- right-pads every mapped row with the tokenizer's pad id up to `max_len = 1023` and
  stores one 0/1 attention mask per example;
- rewrites every label entry equal to the pad id into the ignore index `-100`;
- drops examples whose codebook-0 stream is longer than 1000 frames;
- when computing the metric, strips every `-100` from the label rows before decoding.

Modules, one per component:

- `Sequences`: Python's `[x] * n` (`Repeat`) and the removal of one value from a list (`Without`).
- `Units`: the token key `u + i*1000`, the token name `v_tok_<key>` (`Decimal` is
  Python's `str` on an int), a parse-back of the name, and the mapping of one codebook row.
- `Padding`: the padded row and the attention mask.
- `Labels`: the pad-to-`-100` rewrite of the labels.
- `Metrics`: the `-100` stripping in front of decoding.
- `Preprocess`: the batch, the length filter and the imperative transform
  (`MapUnits`, `PadAndMask`, `ProcessDataToModelInputs`), written as loops that
  append, like the source. The inner padding loop of lines 68-73 is its own method,
  `PadExample`, which overwrites `mask` for every row as the source does.

The tokenizer is a parameter: `Tokenizer(convertTokenToId, padTokenId)`, where
`convertTokenToId: string -> int` is the lookup of one token name with whatever
unknown-token fallback the real tokenizer applies. The tokenizer's output for the
transcripts (`trainer_encodec_asr.py:52`) is an input, `tokenizedLabels`.

Three behaviours of the code are easy to misread; the model follows the code:

- Labels are rewritten by value. Every entry equal to the pad id becomes `-100`,
  wherever it is, not only the trailing padding. `Labels.RewritePaddedLabel` proves
  that the two readings agree exactly when the pad id does not occur inside the
  tokenized text.
- The stored attention mask comes from the last codebook row (`encodec_7`), not
  codebook 0. `mask` is reassigned for every row and appended after the inner loop.
  Under the lockstep invariant (all 8 streams the same length) this makes no
  difference (`Preprocess.KeptExampleShape`). When the lengths differ, the stored
  mask is the mask of codebook 7's length: this is the `ensures` of
  `Preprocess.PadExample`, `Preprocess.PadAndMask` and
  `Preprocess.ProcessDataToModelInputs`. `Padding.MaskInjective` adds that such a
  mask then differs from the one codebook 0's length would give.
- Rows longer than 1023 are not truncated. `[pad] * negative` is empty, so the row
  and its mask keep length `n`.

## Model

| member | source | states |
|---|---|---|
| `Units.UnitKey` | trainer_encodec_asr.py:62 | the key `u + i*1000` of raw index `u` of codebook `i`; `UnitKeySplit`, `UnitKeysDisjoint` and `UnitKeyOverlapOutsideBlock` state its properties |
| `Units.Decimal` | trainer_encodec_asr.py:62 | Python's `str` of an int as the f-string formats the key: a leading `-` for negative keys, then at least one digit; `DecimalRoundTrip` proves it reads back to the key |
| `Units.UnitToken` | trainer_encodec_asr.py:62 | the f-string name `v_tok_<key>`: it starts with `v_tok_` and is longer than the prefix; `UnitTokenRoundTrip` proves it determines the key |
| `Units.MapCodebook` | trainer_encodec_asr.py:62 | the comprehension plus `convert_tokens_to_ids` for one codebook row: one id per raw index, entry `k` the id of `v_tok_{raw[k] + i*1000}`; `MappedIdsDistinct` and `Preprocess.MapUnits` state its properties |
| `Units.UnitKeySplit` | trainer_encodec_asr.py:62 | for `0 <= u < 1000`, the key `u + i*1000` splits back into `(i, u)` by division and remainder by 1000 |
| `Units.UnitKeysDisjoint` | trainer_encodec_asr.py:60-62 | for in-block indices, two keys are equal iff codebook and raw index are equal, so the 8 codebooks occupy disjoint 1000-wide key blocks |
| `Units.UnitKeyOverlapOutsideBlock` | trainer_encodec_asr.py:62 | raw index 1000 of codebook 0 and raw index 0 of codebook 1 produce the same key, so the partition depends on indices staying below 1000 |
| `Units.UnitTokenRoundTrip` | trainer_encodec_asr.py:62 | the name `v_tok_<key>` parses back to exactly `key`, negative keys included |
| `Units.UnitTokensDistinct` | trainer_encodec_asr.py:60-62 | for in-block indices, two unit token names are equal iff codebook and raw index are equal |
| `Units.UnitTokenExample` | trainer_encodec_asr.py:62 | raw index 3 of codebook 1 is looked up as the name `v_tok_1003` |
| `Units.MappedIdsDistinct` | trainer_encodec_asr.py:62 | if the vocabulary gives the 8000 names `v_tok_0` … `v_tok_7999` distinct ids (other names may share the unknown-token id), two in-block (codebook, index) pairs of codebooks 0-7 get the same id iff they are the same pair |
| `Sequences.Repeat` | trainer_encodec_asr.py:71-72 | `[x] * n` has `n` entries, all `x`, when `n > 0`, and is empty when `n <= 0` |
| `Sequences.Without` | trainer_encodec_asr.py:102 | filtering out `v` leaves no `v`, keeps the count of every other value and never lengthens the list |
| `Sequences.WithoutAppend` | trainer_encodec_asr.py:102 | filtering a concatenation is the concatenation of the filtered parts, so survivors keep their order |
| `Sequences.WithoutAbsent` | trainer_encodec_asr.py:102 | filtering out a value that does not occur returns the list unchanged |
| `Padding.PadRow` | trainer_encodec_asr.py:71 | `seq + [pad] * (max_len - len(seq))`; `PadRowShape` states its shape |
| `Padding.PadRowShape` | trainer_encodec_asr.py:70-71 | a row of length at most 1023 becomes exactly 1023 long; its first `len` entries are the row and the rest are the pad id; a longer row is returned unchanged, not truncated |
| `Padding.Mask` | trainer_encodec_asr.py:72 | `[1] * n + [0] * (max_len - n)`; `MaskShape`, `MaskCounts` and `MaskInjective` state its shape, counts and injectivity |
| `Padding.MaskShape` | trainer_encodec_asr.py:72 | the mask has length 1023 when `n <= 1023` (otherwise `n`), and entry `k` is 1 iff `k < n` and 0 iff `k >= n` |
| `Padding.MaskCounts` | trainer_encodec_asr.py:72 | the mask holds exactly `n` ones, and `1023 - n` zeros when `n <= 1023` (none otherwise) |
| `Padding.MaskInjective` | trainer_encodec_asr.py:72-75 | two masks are equal iff they were built from rows of the same length |
| `Padding.MaskMatchesPadding` | trainer_encodec_asr.py:70-72 | a padded row and the mask of its length have equal length; the mask is 1 on the original entries and 0 exactly where pad ids were added |
| `Labels.RewritePad` | trainer_encodec_asr.py:54 | the row keeps its length; an entry equal to the pad id becomes `-100`; every other entry is unchanged |
| `Labels.RewriteLabels` | trainer_encodec_asr.py:54-55 | the batch keeps its number of rows and each row is rewritten on its own |
| `Labels.RewriteCounts` | trainer_encodec_asr.py:54 | when the pad id is not `-100`, no pad id is left; the `-100` count is the old pad count plus the old `-100` count; other values keep their counts |
| `Labels.RewriteIdempotent` | trainer_encodec_asr.py:54 | rewriting an already rewritten row changes nothing |
| `Labels.RewritePaddedLabel` | trainer_encodec_asr.py:52-54 | for a tokenized label padded with `m` pad ids, the by-value rewrite turns exactly the padding into `-100` iff the pad id does not occur in the label itself |
| `Metrics.StripIgnore` | trainer_encodec_asr.py:102 | the stripped row has no `-100` and holds every other value as often as the row did |
| `Metrics.StripLabels` | trainer_encodec_asr.py:102 | every row of the batch is stripped, and the number of rows is kept |
| `Metrics.StripOrder` | trainer_encodec_asr.py:102 | stripping a concatenation strips each part in order, and a row without `-100` is left unchanged |
| `Metrics.RewriteThenStrip` | trainer_encodec_asr.py:102 | stripping the rewritten label (line 54) removes both the pad ids and any `-100` that was already there, keeping the rest in order |
| `Metrics.RewriteStripRemovesPad` | trainer_encodec_asr.py:102 | if the pad id is not `-100` and the label has no `-100`, rewrite-then-strip gives the label with every pad id removed |
| `Metrics.PaddedLabelRoundTrip` | trainer_encodec_asr.py:102 | a tokenized label padded with pad ids, holding neither pad ids nor `-100` itself, comes back exactly after rewrite and strip |
| `Preprocess.KeepExample` | trainer_encodec_asr.py:81-82 | `filter_examples`: an example is kept iff its codebook-0 stream has at most 1000 frames; `KeepExampleBoundary` and `KeptExampleShape` state its consequences |
| `Preprocess.KeepExampleBoundary` | trainer_encodec_asr.py:81-82 | a codebook-0 stream of 1000 frames is kept and one of 1001 frames is dropped |
| `Preprocess.KeptExampleShape` | trainer_encodec_asr.py:81-82 | for a kept example whose 8 streams have equal length, all 8 padded rows and the mask have length exactly 1023, every real frame of every row is kept and marked 1, and every position marked 0 is a pad id in every row |
| `Preprocess.KeptCodebookZeroShape` | trainer_encodec_asr.py:71-82 | for any well-formed batch, a kept example's codebook-0 row pads to exactly 1023, lockstep or not |
| `Preprocess.KeptExampleLongMask` | trainer_encodec_asr.py:72-82 | the filter reads codebook 0 only: a kept codebook-0 stream can go with a codebook-7 stream whose mask is longer than 1023 |
| `Preprocess.MapUnits` | trainer_encodec_asr.py:57-63 | one entry per example, exactly 8 rows each; row `i` of example `b` has the length of `encodec_i[b]`, and its `k`-th entry is the id of the name `v_tok_{encodec_i[b][k] + i*1000}` |
| `Preprocess.PadExample` | trainer_encodec_asr.py:68-73 | the rows of one example are padded by `PadRow`, in order and one for one; the `mask` left after the loop is the mask of the length of the last row |
| `Preprocess.PadAndMask` | trainer_encodec_asr.py:65-75 | one padded example and one mask per example, in order; each example's rows are padded by `PadRow` and its mask is the mask of its last row's length |
| `Preprocess.ProcessDataToModelInputs` | trainer_encodec_asr.py:50-78 | one label row per text, each the rewritten tokenized label; `input_ids` has 8 padded mapped rows per example; `attention_mask` of each example is the mask of the length of `encodec_7` |

## Left out

- Loading the dataset, tokenizer and model (`trainer_encodec_asr.py:13-21`): network and disk I/O.
- Training arguments, the data collator, the trainer and `trainer.train()` (`trainer_encodec_asr.py:25-46`, `117-128`): the training driver.
- `dataset.filter` and `dataset.map` (`trainer_encodec_asr.py:85-97`): library batching. Only the filter predicate and the per-batch transform are modelled.
- The text tokenizer call with `padding=True, truncation=True, max_length=1023` (`trainer_encodec_asr.py:52`): foreign. Its output is an input of `ProcessDataToModelInputs`. It pads to the longest label of the batch, so no fixed label length is claimed.
- The internals of `convert_tokens_to_ids`: foreign. It is the parameter `convertTokenToId`, applied to each token name.
- `batch_decode` (`trainer_encodec_asr.py:103-104`) and `jiwer.wer` (`trainer_encodec_asr.py:107`): foreign, and the metric is a float.
- The print loop (`trainer_encodec_asr.py:108-112`): console output. It also fails with fewer than 10 evaluation examples, which the model does not capture.
- The batch columns the transform leaves in place (`text`, `encodec_*`): `ProcessDataToModelInputs` returns only the three fields it adds.
- Preprocess.PadAndMask: requires every example to have at least one row. The source's `mask` variable lives across examples; with an empty example it would be unbound (first example) or left over from the previous example. The model keeps `mask` per example (`PadExample`), which is the same thing for non-empty examples. The only caller, `ProcessDataToModelInputs`, always builds 8 rows.
- Preprocess.PadExample: requires at least one row, for the same reason.
- Preprocess.ProcessDataToModelInputs: requires a well-formed batch (8 codebook columns, one stream per example in each) and one tokenized label row per text. A dataset batch always has columns of equal length. In the source, a missing `encodec_i` column raises a KeyError, a column shorter than `text` raises an IndexError, and the extra streams of a longer column are ignored, because line 58 loops over `range(len(batch['text']))`; the model does not cover these malformed batches.
- Numeric representation: ids and indices are unbounded integers. The source uses Python integers, which do not wrap.
