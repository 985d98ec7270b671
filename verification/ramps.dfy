/**
 * Resampling a character ramp to a requested length. Output position i of n
 * reads the base at idx = i·(len-1)/(n-1): the floor of idx when its
 * fractional part is below one half, otherwise the next index (capped at the
 * last one). The arithmetic is exact here: idx = num/(n-1) with
 * num = i·(len-1), so floor(idx) = num / (n-1) and frac(idx) < 1/2 exactly
 * when 2·(num % (n-1)) < n-1.
 */
module Ramps {

  import opened NatArith

  /**
   * The base index picked for output position i of n: 0 when n is 1,
   * otherwise the index nearest to i·(len-1)/(n-1), a tie going up.
   */
  function PickIndex(len: nat, n: nat, i: nat): (j: nat)
    requires 1 <= len && 1 <= n && i < n
    ensures j < len
    ensures n == 1 ==> j == 0
    ensures n >= 2 ==> -(n - 1) <= 2 * (i * (len - 1) - j * (n - 1)) < n - 1
  {
    if n == 1 then 0
    else
      MulMono(i, n - 1, len - 1);
      RoundIndex(i * (len - 1), n - 1, len - 1)
  }

  /**
   * num/d rounded to the nearest integer, a tie going up, capped at last:
   * floor(num/d) when the fractional part is below one half, otherwise
   * min(last, floor(num/d) + 1).
   */
  function RoundIndex(num: nat, d: nat, last: nat): (j: nat)
    requires 1 <= d && num <= last * d
    ensures j <= last
    ensures -(d as int) <= 2 * (num - j * d) < d
  {
    var i0 := num / d;
    var rem := num % d;
    FloorBounds(num, d, last);
    if 2 * rem < d then i0
    else
      MulSucc(i0, d);
      if last < i0 + 1 then last else i0 + 1
  }

  /** floor(num/d) never passes last, and reaches it only when num/d is whole. */
  lemma FloorBounds(num: nat, d: nat, last: nat)
    requires 1 <= d && num <= last * d
    ensures num == (num / d) * d + num % d
    ensures num / d <= last
    ensures num / d == last ==> num % d == 0
  {
    var q, rem := num / d, num % d;
    assert num == q * d + rem;
  }

  /** The ramp of length n resampled from base. */
  function Resampled(base: seq<char>, n: nat): (r: seq<char>)
    requires |base| >= 1
    ensures |r| == n
  {
    seq(n, k requires 0 <= k < n => base[PickIndex(|base|, n, k)])
  }

  /**
   * Every character comes from the base; the first is the base's first and,
   * for n >= 2, the last is the base's last.
   */
  lemma ResampledEnds(base: seq<char>, n: nat)
    requires |base| >= 1
    ensures forall k :: 0 <= k < n ==> Resampled(base, n)[k] in base
    ensures n >= 1 ==> Resampled(base, n)[0] == base[0]
    ensures n >= 2 ==> Resampled(base, n)[n - 1] == base[|base| - 1]
  {
    if n >= 1 {
      PickFirst(|base|, n);
    }
    if n >= 2 {
      PickLast(|base|, n);
    }
  }

  /** Position 0 reads base index 0. */
  lemma PickFirst(len: nat, n: nat)
    requires 1 <= len && 1 <= n
    ensures PickIndex(len, n, 0) == 0
  {
  }

  /** For n >= 2, the last position reads the last base index. */
  lemma PickLast(len: nat, n: nat)
    requires 1 <= len && 2 <= n
    ensures PickIndex(len, n, n - 1) == len - 1
  {
    RoundsToLast(PickIndex(len, n, n - 1), n - 1, len - 1);
  }

  /** An index j <= last within half a step of last (in units of d) is last. */
  lemma RoundsToLast(j: nat, d: nat, last: nat)
    requires 1 <= d && j <= last && -(d as int) <= 2 * (d * last - j * d) < d
    ensures j == last
  {
    if j < last {
      MulMono(j + 1, last, d);
      MulSucc(j, d);
      assert false;
    }
  }

  /** Resampling to the base's own length gives the base back. */
  lemma ResampledIdentity(base: seq<char>)
    requires |base| >= 1
    ensures Resampled(base, |base|) == base
  {
    var len := |base|;
    var r := Resampled(base, len);
    forall k | 0 <= k < len
      ensures r[k] == base[k]
    {
      if len >= 2 {
        var j := PickIndex(len, len, k);
        if j < k {
          MulMono(j + 1, k, len - 1);
          MulSucc(j, len - 1);
          assert false;
        } else if j > k {
          MulMono(k + 1, j, len - 1);
          MulSucc(k, len - 1);
          assert false;
        }
      }
    }
  }

  /** Later output positions never read earlier base positions: the ramp keeps its order. */
  lemma PickMonotone(len: nat, n: nat, i1: nat, i2: nat)
    requires 1 <= len && 1 <= n && i1 <= i2 < n
    ensures PickIndex(len, n, i1) <= PickIndex(len, n, i2)
  {
    if n >= 2 {
      var j1, j2 := PickIndex(len, n, i1), PickIndex(len, n, i2);
      if j1 > j2 {
        MulMono(i1, i2, len - 1);
        MulMono(j2 + 1, j1, n - 1);
        MulSucc(j2, n - 1);
        assert false;
      }
    }
  }

  /** `make_ramp`'s loop: the base itself at its own length, otherwise one pushed character per position. */
  method Resample(base: seq<char>, n: nat) returns (ramp: seq<char>)
    requires |base| >= 1
    ensures ramp == Resampled(base, n)
  {
    if n == |base| {
      ResampledIdentity(base);
      return base;
    }
    ramp := [];
    for i := 0 to n
      invariant |ramp| == i
      invariant forall k :: 0 <= k < i ==> ramp[k] == Resampled(base, n)[k]
    {
      var c := base[PickIndex(|base|, n, i)];
      ramp := ramp + [c];
    }
  }
}
