/** The three helpers the loader calls on values: quote stripping, the memory
    range test and the power-of-two test. Their bodies are not part of this
    model; the definitions below are the behaviour the loader's error text
    ("power of 2 in range [2, 2^32]") and its call sites assume of them. */
module ConfigUtils {

  /** 2 to the power k. */
  function Pow2(k: nat): (r: nat)
    ensures r >= 1
  {
    if k == 0 then 1 else 2 * Pow2(k - 1)
  }

  /** Smallest and largest memory size a memory field accepts. */
  const MinMemSize: nat := 2
  const MaxMemSize: nat := 0x1_0000_0000

  /** `isInValidRange`: the inclusive range [2, 2^32]. */
  predicate IsInValidRange(v: int)
  {
    MinMemSize <= v <= MaxMemSize
  }

  /** `isPowerOfTwo`: halving an even number reaches 1. */
  predicate IsPowerOfTwo(v: int)
    decreases if v < 0 then 0 else v
  {
    v == 1 || (v >= 2 && v % 2 == 0 && IsPowerOfTwo(v / 2))
  }

  /** `stripQuotes`: removes one pair of surrounding double quotes, if both are there. */
  function StripQuotes(s: string): (r: string)
    ensures r == s || s == ['"'] + r + ['"']
    ensures |r| == |s| || |r| == |s| - 2
  {
    if |s| >= 2 && s[0] == '"' && s[|s| - 1] == '"' then s[1..|s| - 1] else s
  }

  lemma {:induction false} Pow2IsPowerOfTwo(k: nat)
    ensures IsPowerOfTwo(Pow2(k))
  {
    if k > 0 {
      Pow2IsPowerOfTwo(k - 1);
      assert Pow2(k) / 2 == Pow2(k - 1);
    }
  }

  /** The halving test accepts exactly the numbers 2^k. */
  lemma {:induction false} PowerOfTwoIsPow2(v: int)
    ensures IsPowerOfTwo(v) <==> exists k: nat :: Pow2(k) == v
    decreases if v < 0 then 0 else v
  {
    if IsPowerOfTwo(v) {
      if v == 1 {
        assert Pow2(0) == v;
      } else {
        PowerOfTwoIsPow2(v / 2);
        var k: nat :| Pow2(k) == v / 2;
        assert Pow2(k + 1) == v;
      }
    }
    if exists k: nat :: Pow2(k) == v {
      var k: nat :| Pow2(k) == v;
      Pow2IsPowerOfTwo(k);
    }
  }

  lemma {:induction false} Pow2Increasing(i: nat, j: nat)
    requires i < j
    ensures Pow2(i) < Pow2(j)
    decreases j
  {
    if i < j - 1 {
      Pow2Increasing(i, j - 1);
    }
  }

  lemma {:induction false} Pow2Sum(i: nat, j: nat)
    ensures Pow2(i + j) == Pow2(i) * Pow2(j)
  {
    if i > 0 {
      Pow2Sum(i - 1, j);
    }
  }

  lemma Pow2Of32()
    ensures Pow2(32) == MaxMemSize
  {
    assert Pow2(4) == 16;
    Pow2Sum(4, 4);
    Pow2Sum(8, 8);
    Pow2Sum(16, 16);
  }

  /** 2^k is in the memory range exactly when 1 <= k <= 32. */
  lemma Pow2InRange(k: nat)
    ensures IsInValidRange(Pow2(k)) <==> 1 <= k <= 32
  {
    Pow2Of32();
    if k > 32 {
      Pow2Increasing(32, k);
    }
    if 1 < k < 32 {
      Pow2Increasing(1, k);
      Pow2Increasing(k, 32);
    }
  }

  /** A memory size passes both tests exactly when it is 2^k with 1 <= k <= 32. */
  lemma MemSizeIsPow2InRange(v: int)
    ensures IsInValidRange(v) && IsPowerOfTwo(v) <==> exists k: nat :: 1 <= k <= 32 && Pow2(k) == v
  {
    PowerOfTwoIsPow2(v);
    if IsInValidRange(v) && IsPowerOfTwo(v) {
      var k: nat :| Pow2(k) == v;
      Pow2InRange(k);
    }
    if exists k: nat :: 1 <= k <= 32 && Pow2(k) == v {
      var k: nat :| 1 <= k <= 32 && Pow2(k) == v;
      Pow2InRange(k);
    }
  }

  /** Quote stripping undoes quoting. */
  lemma StripQuotesOfQuoted(t: string)
    ensures StripQuotes(['"'] + t + ['"']) == t
  {
    var s := ['"'] + t + ['"'];
    assert s[1..|s| - 1] == t;
  }

  /** A token without a surrounding pair of quotes is left as it is. */
  lemma StripQuotesOfUnquoted(t: string)
    requires |t| < 2 || t[0] != '"' || t[|t| - 1] != '"'
    ensures StripQuotes(t) == t
  {
  }
}
