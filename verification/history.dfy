/**
 * Repeated application of an update rule and the temporal integral of the
 * resulting history: the time-stepping shared by the C++ `forward_steps`, the
 * Python simulator's `run_simulation` and the two 1-D scripts.
 */
module History {
  import opened Vectors

  /** `k` successive applications of `rule` to `g`. */
  function Iterate(rule: seq<real> -> seq<real>, g: seq<real>, k: nat): seq<real>
  {
    if k == 0 then g else rule(Iterate(rule, g, k - 1))
  }

  /** The rule maps states of `n` sites to states of `n` sites. */
  ghost predicate PreservesLength(rule: seq<real> -> seq<real>, n: nat)
  {
    forall s: seq<real> {:trigger rule(s)} :: |s| == n ==> |rule(s)| == n
  }

  lemma {:induction false} IterateLength(rule: seq<real> -> seq<real>, g: seq<real>, k: nat)
    requires PreservesLength(rule, |g|)
    ensures |Iterate(rule, g, k)| == |g|
  {
    if k > 0 {
      IterateLength(rule, g, k - 1);
    }
  }

  /** The first `steps` states of the trajectory from `g0`: slice t is the state after t updates. */
  function Orbit(rule: seq<real> -> seq<real>, g0: seq<real>, steps: nat): (h: seq<seq<real>>)
    ensures |h| == steps
    ensures steps > 0 ==> h[0] == g0
    ensures forall t :: 0 <= t < steps - 1 ==> h[t + 1] == rule(h[t])
  {
    seq(steps, t requires 0 <= t => Iterate(rule, g0, t))
  }

  /** Every slice of a length-preserving orbit has the length of its start. */
  lemma OrbitShape(rule: seq<real> -> seq<real>, g0: seq<real>, steps: nat)
    requires PreservesLength(rule, |g0|)
    ensures forall t :: 0 <= t < steps ==> |Orbit(rule, g0, steps)[t]| == |g0|
  {
    forall t | 0 <= t < steps
      ensures |Orbit(rule, g0, steps)[t]| == |g0|
    {
      IterateLength(rule, g0, t);
    }
  }

  /** The orbit one step longer is the orbit with the next state appended. */
  lemma OrbitSnoc(rule: seq<real> -> seq<real>, g0: seq<real>, steps: nat)
    requires steps > 0
    ensures Orbit(rule, g0, steps + 1) == Orbit(rule, g0, steps) + [rule(Orbit(rule, g0, steps)[steps - 1])]
  {
  }

  ghost predicate Rectangular(cube: seq<seq<real>>, n: nat)
  {
    forall t :: 0 <= t < |cube| ==> |cube[t]| == n
  }

  /** The values of site `i` over time. */
  function SiteSeries(cube: seq<seq<real>>, i: nat): (s: seq<real>)
    requires forall t :: 0 <= t < |cube| ==> i < |cube[t]|
    ensures |s| == |cube|
  {
    seq(|cube|, t requires 0 <= t < |cube| => cube[t][i])
  }

  /**
   * Temporal integral: the history summed over its time axis, slice by slice.
   * Each site of the result is the sum of that site's series.
   */
  function TimeSum(cube: seq<seq<real>>, n: nat): (r: seq<real>)
    requires Rectangular(cube, n)
    ensures |r| == n
    ensures forall i :: 0 <= i < n ==> r[i] == Sum(SiteSeries(cube, i))
  {
    if cube == [] then Zeros(n)
    else
      var front := cube[..|cube| - 1];
      var acc := TimeSum(front, n);
      assert forall i :: 0 <= i < n ==> SiteSeries(cube, i)[..|cube| - 1] == SiteSeries(front, i);
      Add(acc, cube[|cube| - 1])
  }

  /** A history of all-zero slices integrates to zero. */
  lemma ZeroHistory(cube: seq<seq<real>>, n: nat)
    requires Rectangular(cube, n)
    requires forall t :: 0 <= t < |cube| ==> AllZero(cube[t])
    ensures AllZero(TimeSum(cube, n))
  {
    forall i | 0 <= i < n
      ensures TimeSum(cube, n)[i] == 0.0
    {
      SumOfZeros(SiteSeries(cube, i));
    }
  }

  /** Integrating a history that is the sum of two others gives the sum of their integrals. */
  lemma {:induction false} TimeSumAdd(c1: seq<seq<real>>, c2: seq<seq<real>>, c3: seq<seq<real>>, n: nat)
    requires Rectangular(c1, n) && Rectangular(c2, n) && Rectangular(c3, n)
    requires |c1| == |c3| && |c2| == |c3|
    requires forall t :: 0 <= t < |c3| ==> c3[t] == Add(c1[t], c2[t])
    ensures TimeSum(c3, n) == Add(TimeSum(c1, n), TimeSum(c2, n))
    decreases |c3|
  {
    if c3 != [] {
      var m := |c3| - 1;
      TimeSumAdd(c1[..m], c2[..m], c3[..m], n);
      AddInterchange(TimeSum(c1[..m], n), TimeSum(c2[..m], n), c1[m], c2[m]);
    }
  }

  /** (a + b) + (x + y) == (a + x) + (b + y), element-wise. */
  lemma AddInterchange(a: seq<real>, b: seq<real>, x: seq<real>, y: seq<real>)
    requires |b| == |a| && |x| == |a| && |y| == |a|
    ensures Add(Add(a, b), Add(x, y)) == Add(Add(a, x), Add(b, y))
  {
  }
}
