/** Small sequence helpers shared by the preprocessing and metric modules:
    Python's list repetition `[x] * n` and the removal of every occurrence of
    one value from a list. */
module Sequences {

  /** Python's `[x] * n`: n copies of x, and the empty list when n <= 0. */
  function Repeat<T>(x: T, n: int): (r: seq<T>)
    ensures |r| == if n <= 0 then 0 else n
    ensures forall k :: 0 <= k < |r| ==> r[k] == x
  {
    if n <= 0 then [] else seq(n, _ => x)
  }

  /** A repetition of x holds x exactly max(n, 0) times and nothing else. */
  lemma {:induction false} RepeatMultiset<T>(x: T, n: int)
    ensures multiset(Repeat(x, n)) == multiset{}[x := if n <= 0 then 0 else n]
    decreases if n <= 0 then 0 else n
  {
    if n > 0 {
      RepeatMultiset(x, n - 1);
      assert Repeat(x, n) == Repeat(x, n - 1) + [x];
    }
  }

  /** s with every occurrence of v removed, the others kept in order. */
  function Without(s: seq<int>, v: int): (r: seq<int>)
    ensures v !in r
    ensures |r| <= |s|
    ensures multiset(r) == multiset(s)[v := 0]
  {
    if s == [] then []
    else
      assert s == [s[0]] + s[1..];
      if s[0] == v then Without(s[1..], v)
      else [s[0]] + Without(s[1..], v)
  }

  /** Removal works piecewise, so the surviving entries keep their relative order. */
  lemma {:induction false} WithoutAppend(a: seq<int>, b: seq<int>, v: int)
    ensures Without(a + b, v) == Without(a, v) + Without(b, v)
  {
    if a == [] {
      assert a + b == b;
    } else {
      assert (a + b)[1..] == a[1..] + b;
      WithoutAppend(a[1..], b, v);
    }
  }

  /** Removing a value that does not occur changes nothing. */
  lemma {:induction false} WithoutAbsent(s: seq<int>, v: int)
    requires v !in s
    ensures Without(s, v) == s
  {
    if s != [] {
      WithoutAbsent(s[1..], v);
    }
  }
}
