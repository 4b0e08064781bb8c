/**
 * Integer halving arithmetic shared by every encoder.
 *
 * The Python code halves a time dimension with `int(d * 0.5)` and computes
 * the size after `n` halvings in closed form with `int(d * (0.5 ** n))`.
 * For the non-negative sizes it is applied to (and below 2^53, where the
 * float products are exact) both truncate toward zero, which for a `nat`
 * is Dafny's `/`.
 */
module Halving {

  /** 2^n. */
  function Pow2(n: nat): (r: nat)
    ensures r >= 1
  {
    if n == 0 then 1 else 2 * Pow2(n - 1)
  }

  lemma {:induction false} Pow2Monotone(m: nat, n: nat)
    requires m <= n
    ensures Pow2(m) <= Pow2(n)
    decreases n
  {
    if m < n {
      Pow2Monotone(m, n - 1);
    }
  }

  /** `int(d * 0.5)`: one halving of a time dimension. */
  function Half(d: nat): nat
  {
    d / 2
  }

  /** The value of `d` after `n` successive halvings, one per depth level. */
  function HalveTimes(d: nat, n: nat): nat
  {
    if n == 0 then d else Half(HalveTimes(d, n - 1))
  }

  /** `int(d * (0.5 ** n))`: the closed form used by the Python code. */
  function ScaledFloor(d: nat, n: nat): nat
  {
    QuotientNat(d, Pow2(n));
    d / Pow2(n)
  }

  /** The quotient of two naturals is a natural. */
  lemma {:induction false} QuotientNat(d: nat, p: nat)
    requires p > 0
    ensures d / p >= 0
    decreases d
  {
    if d >= p {
      QuotientNat(d - p, p);
      QuotientStep(d, p);
    }
  }

  /** Taking p away from the dividend takes one away from the quotient. */
  lemma {:induction false} QuotientStep(d: nat, p: nat)
    requires p > 0 && d >= p && (d - p) / p >= 0
    ensures d / p == (d - p) / p + 1
  {
    var q, r := (d - p) / p, (d - p) % p;
    assert d - p == q * p + r;
    assert d == (q + 1) * p + r;
    DivUnique(d, p, q + 1, r);
  }

  /** If d == a*m + s with 0 <= s < m, then d / m == a. */
  lemma {:induction false} DivUnique(d: nat, m: nat, a: nat, s: nat)
    requires m > 0 && s < m && d == a * m + s
    ensures d / m == a
  {
    var q, r := d / m, d % m;
    assert (q - a) * m == s - r;
    if q > a {
      MulAtLeast(q - a, m);
    } else if q < a {
      MulAtLeast(a - q, m);
    }
  }

  lemma {:induction false} MulAtLeast(x: int, m: nat)
    requires x >= 1
    ensures x * m >= m
  {
    assert x * m == m + (x - 1) * m;
  }

  /** Halving the quotient by p is dividing by 2p. */
  lemma {:induction false} HalfOfQuotient(d: nat, p: nat)
    requires p > 0
    ensures (d / p) / 2 == d / (2 * p)
  {
    var q, r := d / p, d % p;
    var a, b := q / 2, q % 2;
    assert d == q * p + r;
    Regroup(q, a, b, p, r);
    AtMostOnce(b, p);
    DivUnique(d, 2 * p, a, b * p + r);
  }

  /** q*p + r, with q written as 2a + b, regrouped around 2p. */
  lemma {:induction false} Regroup(q: int, a: int, b: int, p: int, r: int)
    requires q == 2 * a + b
    ensures q * p + r == a * (2 * p) + (b * p + r)
  {
  }

  lemma {:induction false} AtMostOnce(b: nat, p: nat)
    requires b <= 1
    ensures b * p <= p
  {
    if b == 0 {
      assert b * p == 0;
    } else {
      assert b * p == p;
    }
  }

  /**
   * The key fact: halving `n` times, one level at a time, gives exactly the
   * closed form that sizes the compressors.
   */
  lemma {:induction false} HalveTimesIsScaledFloor(d: nat, n: nat)
    ensures HalveTimes(d, n) == ScaledFloor(d, n)
    ensures HalveTimes(d, n) == d / Pow2(n)
  {
    if n > 0 {
      HalveTimesIsScaledFloor(d, n - 1);
      HalfOfQuotient(d, Pow2(n - 1));
    }
  }

  /** Halving the first time and then n more times is halving n+1 times. */
  lemma {:induction false} HalveTimesShift(d: nat, n: nat)
    ensures HalveTimes(Half(d), n) == HalveTimes(d, n + 1)
  {
    if n > 0 {
      HalveTimesShift(d, n - 1);
    }
  }

  /** A size survives n halvings with value >= 1 exactly when it is at least 2^n. */
  lemma {:induction false} HalveTimesPositive(d: nat, n: nat)
    ensures HalveTimes(d, n) >= 1 <==> d >= Pow2(n)
  {
    HalveTimesIsScaledFloor(d, n);
    if d >= Pow2(n) {
      assert d / Pow2(n) >= Pow2(n) / Pow2(n) == 1;
    } else {
      DivUnique(d, Pow2(n), 0, d);
    }
  }

  /**
   * A size of at least 2^depth is at least 2 before each of the depth levels,
   * so every level can still pool it.
   */
  lemma {:induction false} LevelInputAtLeastTwo(d: nat, depth: nat, n: nat)
    requires d >= Pow2(depth) && n < depth
    ensures HalveTimes(d, n) >= 2
  {
    Pow2Monotone(n + 1, depth);
    HalveTimesPositive(d, n + 1);
  }

  /**
   * `get_hidden_size(input_size, num_layer)`: the time dimension at every
   * level, from the input (level 0) to the last level.
   */
  function HiddenSizes(inputSize: nat, numLayer: nat): (r: seq<nat>)
    ensures |r| == numLayer + 1
  {
    seq(numLayer + 1, i requires 0 <= i <= numLayer => ScaledFloor(inputSize, i))
  }

  /**
   * Each entry of `get_hidden_size` is the previous one halved, starting from
   * the input size: the list is exactly the sequence of sizes the levels see.
   */
  lemma {:induction false} HiddenSizesAreLevelSizes(inputSize: nat, numLayer: nat)
    ensures HiddenSizes(inputSize, numLayer)[0] == inputSize
    ensures forall i :: 0 <= i <= numLayer ==> HiddenSizes(inputSize, numLayer)[i] == HalveTimes(inputSize, i)
    ensures forall i :: 0 <= i < numLayer ==>
      HiddenSizes(inputSize, numLayer)[i + 1] == Half(HiddenSizes(inputSize, numLayer)[i])
  {
    var r := HiddenSizes(inputSize, numLayer);
    forall i | 0 <= i <= numLayer
      ensures r[i] == HalveTimes(inputSize, i)
    {
      HalveTimesIsScaledFloor(inputSize, i);
    }
  }

  /** The length of a `zip` of two lists. */
  function Min(a: nat, b: nat): nat
  {
    if a <= b then a else b
  }

  /** Sum of a sequence of sizes. */
  function Sum(s: seq<nat>): nat
  {
    if s == [] then 0 else Sum(s[..|s| - 1]) + s[|s| - 1]
  }

  lemma {:induction false} SumAppend(s: seq<nat>, t: seq<nat>)
    ensures Sum(s + t) == Sum(s) + Sum(t)
    decreases |t|
  {
    if t == [] {
      assert s + t == s;
    } else {
      assert (s + t)[..|s + t| - 1] == s + t[..|t| - 1];
      SumAppend(s, t[..|t| - 1]);
    }
  }

  /** Extending a prefix by one entry adds that entry to its sum. */
  lemma {:induction false} SumPrefixStep(s: seq<nat>, k: nat)
    requires k < |s|
    ensures Sum(s[..k + 1]) == Sum(s[..k]) + s[k]
  {
    assert s[..k + 1][..k] == s[..k];
  }

  /** Extending a prefix by the next entry gives the next prefix. */
  lemma SnocSlice<T>(s: seq<T>, j: nat)
    requires j < |s|
    ensures s[..j] + [s[j]] == s[..j + 1]
  {
  }

  /** Extending a slice by the next entry gives the next slice. */
  lemma SliceSnoc<T>(s: seq<T>, a: nat, b: nat)
    requires a <= b < |s|
    ensures s[a..b] + [s[b]] == s[a..b + 1]
  {
  }

  lemma AppendAssoc<T>(a: seq<T>, b: seq<T>, c: seq<T>)
    ensures (a + b) + c == a + (b + c)
  {
  }

  lemma EmptySuffix<T>(s: seq<T>)
    ensures s + [] == s
  {
  }

  lemma EmptyPrefix<T>(s: seq<T>)
    ensures [] + s == s
  {
  }

  /** `n` copies of `x`, as `[x] * n` builds. */
  function Repeat<T>(x: T, n: nat): (r: seq<T>)
    ensures |r| == n
    ensures forall i :: 0 <= i < n ==> r[i] == x
  {
    if n == 0 then [] else Repeat(x, n - 1) + [x]
  }

  lemma {:induction false} SumRepeatStep(k: nat, n: nat)
    requires n > 0
    ensures Sum(Repeat(k, n)) == Sum(Repeat(k, n - 1)) + k
  {
    assert Repeat(k, n)[..n - 1] == Repeat(k, n - 1);
  }

  lemma {:induction false} MulStep(k: nat, n: nat)
    requires n > 0
    ensures k * n == k * (n - 1) + k
  {
  }

  /** One more copy in front is one more copy. */
  lemma {:induction false} RepeatPrepend<T>(x: T, n: nat)
    ensures [x] + Repeat(x, n) == Repeat(x, n + 1)
  {
  }

  /** `n` copies of `k` add up to `k * n`. */
  lemma {:induction false} SumConstant(k: nat, n: nat)
    ensures Sum(Repeat(k, n)) == k * n
  {
    if n > 0 {
      SumConstant(k, n - 1);
      SumRepeatStep(k, n);
      MulStep(k, n);
    }
  }
}
