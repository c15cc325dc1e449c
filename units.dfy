/** Unit token mapping. A raw quantizer index u of codebook i is written as
    the token name `v_tok_<u + i*1000>` and looked up in the vocabulary of
    the text tokenizer, so that the 8 codebooks share one vocabulary in
    disjoint blocks of 1000 keys, provided every raw index is below 1000, which
    the code does not check. */
module Units {

  datatype Option<T> = None | Some(value: T)

  /** Codebooks per example: `range(8)`. */
  const CodebookCount: int := 8
  /** Width of the key block that each codebook owns. */
  const BlockSize: int := 1000
  /** Prefix of every unit token name. */
  const TokenPrefix: string := "v_tok_"

  /** The integer inside the token name for raw index u of codebook i. */
  function UnitKey(i: int, u: int): int
  {
    u + i * BlockSize
  }

  /** The block of a key and the index inside it. */
  function SplitKey(key: int): (int, int)
  {
    (key / BlockSize, key % BlockSize)
  }

  /** A raw index below the block width is recovered, with its codebook, from its key. */
  lemma UnitKeySplit(i: int, u: int)
    requires 0 <= u < BlockSize
    ensures SplitKey(UnitKey(i, u)) == (i, u)
  {
  }

  /** Keys of in-block raw indices coincide exactly when codebook and index do:
      different codebooks occupy disjoint key blocks. */
  lemma UnitKeysDisjoint(i: int, u: int, j: int, v: int)
    requires 0 <= u < BlockSize && 0 <= v < BlockSize
    ensures UnitKey(i, u) == UnitKey(j, v) <==> i == j && u == v
  {
    UnitKeySplit(i, u);
    UnitKeySplit(j, v);
  }

  /** Outside the block width the partition breaks: raw index 1000 of codebook 0
      and raw index 0 of codebook 1 name the same token. */
  lemma UnitKeyOverlapOutsideBlock()
    ensures UnitKey(0, BlockSize) == UnitKey(1, 0)
  {
  }

  predicate IsDigit(c: char)
  {
    '0' <= c <= '9'
  }

  predicate AllDigits(s: string)
  {
    forall k :: 0 <= k < |s| ==> IsDigit(s[k])
  }

  function DigitChar(d: int): char
    requires 0 <= d < 10
  {
    (('0' as int) + d) as char
  }

  function DigitValue(c: char): nat
    requires IsDigit(c)
  {
    (c as int) - ('0' as int)
  }

  /** Decimal digits of n, most significant first, without leading zeros. */
  function NatDigits(n: nat): (s: string)
    ensures |s| >= 1 && AllDigits(s)
    decreases n
  {
    if n < 10 then [DigitChar(n)] else NatDigits(n / 10) + [DigitChar(n % 10)]
  }

  /** Python's `str(n)` for an int, as the f-string of trainer_encodec_asr.py:62 formats the key. */
  function Decimal(n: int): (s: string)
    ensures |s| >= 1
  {
    if n < 0 then "-" + NatDigits(-n) else NatDigits(n)
  }

  /** The token name `v_tok_<key>`. */
  function UnitToken(key: int): (t: string)
    ensures |t| > |TokenPrefix| && t[..|TokenPrefix|] == TokenPrefix
  {
    TokenPrefix + Decimal(key)
  }

  /** Value of a string of decimal digits. */
  function ParseDigits(s: string): nat
    requires AllDigits(s)
  {
    if s == [] then 0 else 10 * ParseDigits(s[..|s| - 1]) + DigitValue(s[|s| - 1])
  }

  /** Reads a (possibly negative) decimal integer back. */
  function ParseDecimal(s: string): Option<int>
  {
    if |s| > 1 && s[0] == '-' && AllDigits(s[1..]) then Some(-(ParseDigits(s[1..]) as int))
    else if |s| > 0 && AllDigits(s) then Some(ParseDigits(s))
    else None
  }

  /** Which key a unit token name stands for, if it is one. */
  function TokenKey(t: string): Option<int>
  {
    if |t| >= |TokenPrefix| && t[..|TokenPrefix|] == TokenPrefix
    then ParseDecimal(t[|TokenPrefix|..])
    else None
  }

  lemma {:induction false} NatDigitsRoundTrip(n: nat)
    ensures ParseDigits(NatDigits(n)) == n
    decreases n
  {
    var s := NatDigits(n);
    if n < 10 {
      assert s[..|s| - 1] == [];
    } else {
      NatDigitsRoundTrip(n / 10);
      assert s[..|s| - 1] == NatDigits(n / 10);
    }
  }

  /** Formatting a key and reading it back gives the key. */
  lemma DecimalRoundTrip(n: int)
    ensures ParseDecimal(Decimal(n)) == Some(n)
  {
    var s := Decimal(n);
    if n < 0 {
      NatDigitsRoundTrip(-n);
      assert s[1..] == NatDigits(-n);
    } else {
      NatDigitsRoundTrip(n);
      assert IsDigit(s[0]);
    }
  }

  /** The token name of a key determines the key. */
  lemma UnitTokenRoundTrip(key: int)
    ensures TokenKey(UnitToken(key)) == Some(key)
  {
    assert UnitToken(key)[|TokenPrefix|..] == Decimal(key);
    DecimalRoundTrip(key);
  }

  /** Two in-block unit tokens are the same name exactly when they come from the
      same codebook and the same raw index: the vocabulary lookup never confuses
      codebooks. */
  lemma UnitTokensDistinct(i: int, u: int, j: int, v: int)
    requires 0 <= u < BlockSize && 0 <= v < BlockSize
    ensures UnitToken(UnitKey(i, u)) == UnitToken(UnitKey(j, v)) <==> i == j && u == v
  {
    UnitTokenRoundTrip(UnitKey(i, u));
    UnitTokenRoundTrip(UnitKey(j, v));
    UnitKeysDisjoint(i, u, j, v);
  }

  /** The name built for raw index 3 of codebook 1. */
  lemma UnitTokenExample()
    ensures UnitToken(UnitKey(1, 3)) == "v_tok_1003"
  {
  }

  /** trainer_encodec_asr.py:62: every raw index of codebook i looked up as its unit token. */
  function MapCodebook(vocab: string -> int, i: int, raw: seq<int>): seq<int>
  {
    seq(|raw|, k requires 0 <= k < |raw| => vocab(UnitToken(UnitKey(i, raw[k]))))
  }

  /** When the vocabulary gives the 8000 unit token names of the 8 codebooks
      distinct ids (none of them falls back to the unknown token; other names may),
      in-block raw indices of different codebooks, or different indices of one
      codebook, never receive the same id. */
  lemma MappedIdsDistinct(vocab: string -> int, i: int, u: int, j: int, v: int)
    requires forall k1, k2 ::
      (0 <= k1 < CodebookCount * BlockSize && 0 <= k2 < CodebookCount * BlockSize &&
       vocab(UnitToken(k1)) == vocab(UnitToken(k2))) ==> k1 == k2
    requires 0 <= i < CodebookCount && 0 <= j < CodebookCount
    requires 0 <= u < BlockSize && 0 <= v < BlockSize
    ensures MapCodebook(vocab, i, [u]) == MapCodebook(vocab, j, [v]) <==> i == j && u == v
  {
    var a, c := MapCodebook(vocab, i, [u]), MapCodebook(vocab, j, [v]);
    if a == c {
      assert a[0] == c[0];
    }
    UnitKeysDisjoint(i, u, j, v);
  }
}
