/**
 * The stand-alone propagation script on a ring of 100 sites: a single poke
 * of 1.0 at the centre, 199 steps of
 * next = squash(1.0·g + 0.5·(roll(g, 1) + roll(g, -1))) written column by
 * column into a 100 x 200 space-time heatmap, and the heatmap summed along
 * its time axis.
 */
module Propagation {
  import opened Results
  import opened Vectors
  import opened History
  import Ring
  import SecondOrder

  const LatticeSize: nat := 100
  const TimeSteps: nat := 200
  const Alpha: real := 1.0
  const Beta: real := 0.5
  const Center: nat := LatticeSize / 2

  /** The state at t = 0: zeros except 1.0 at the centre site. */
  function Initial(): (g: seq<real>)
    ensures |g| == LatticeSize
    ensures forall i :: 0 <= i < LatticeSize ==> g[i] == if i == Center then 1.0 else 0.0
  {
    Zeros(LatticeSize)[Center := 1.0]
  }

  /** The states at times 0 .. 199, each the update of the one before. */
  function Spacetime(squash: real -> real): (h: seq<seq<real>>)
    ensures |h| == TimeSteps && Rectangular(h, LatticeSize)
    ensures h[0] == Initial()
    ensures forall t :: 0 <= t < TimeSteps - 1 ==> h[t + 1] == Ring.Step(Alpha, Beta, squash, h[t])
  {
    Ring.StepRuleKeepsLength(Alpha, Beta, squash, LatticeSize);
    OrbitShape(Ring.StepRule(Alpha, Beta, squash), Initial(), TimeSteps);
    Orbit(Ring.StepRule(Alpha, Beta, squash), Initial(), TimeSteps)
  }

  /** `heat[:, t] = g`: column t becomes g, every other column is kept. */
  method SetColumn(heat: array2<real>, t: nat, g: seq<real>)
    requires t < heat.Length1 && |g| == heat.Length0
    modifies heat
    ensures forall i, s :: 0 <= i < heat.Length0 && 0 <= s < heat.Length1 ==>
      heat[i, s] == if s == t then g[i] else old(heat[i, s])
  {
    for i := 0 to heat.Length0
      invariant forall i', s :: 0 <= i' < heat.Length0 && 0 <= s < heat.Length1 ==>
        heat[i', s] == if s == t && i' < i then g[i'] else old(heat[i', s])
    {
      heat[i, t] := g[i];
    }
  }

  /** Row i of the heatmap: site i over time. */
  function Row(heat: array2<real>, i: nat): (r: seq<real>)
    requires i < heat.Length0
    reads heat
    ensures |r| == heat.Length1
  {
    seq(heat.Length1, t requires 0 <= t < heat.Length1 reads heat => heat[i, t])
  }

  /** `np.sum(heatmap, axis=1)`: every row summed. */
  function TemporalIntegral(heat: array2<real>): (r: seq<real>)
    reads heat
    ensures |r| == heat.Length0
  {
    seq(heat.Length0, i requires 0 <= i < heat.Length0 reads heat => Sum(Row(heat, i)))
  }

  /**
   * The script: a zero heatmap, column 0 the initial state, column t + 1
   * the update of column t; then the temporal integral, which is the time
   * sum of the space-time history.
   */
  method Propagate(squash: real -> real) returns (heatmap: array2<real>, integral: seq<real>)
    ensures fresh(heatmap) && heatmap.Length0 == LatticeSize && heatmap.Length1 == TimeSteps
    ensures forall i, t :: 0 <= i < LatticeSize && 0 <= t < TimeSteps ==> heatmap[i, t] == Spacetime(squash)[t][i]
    ensures integral == TimeSum(Spacetime(squash), LatticeSize)
  {
    heatmap := new real[LatticeSize, TimeSteps]((i, t) => 0.0);
    var current := Initial();
    ghost var h := Spacetime(squash);
    SetColumn(heatmap, 0, current);
    for t := 0 to TimeSteps - 1
      invariant current == h[t]
      invariant forall i, s :: 0 <= i < LatticeSize && 0 <= s <= t ==> heatmap[i, s] == h[s][i]
    {
      var next := Ring.RollUpdate(Alpha, Beta, squash, current);
      SetColumn(heatmap, t + 1, next);
      current := next;
    }
    integral := TemporalIntegral(heatmap);
    forall i | 0 <= i < LatticeSize
      ensures integral[i] == TimeSum(h, LatticeSize)[i]
    {
      assert Row(heatmap, i) == SiteSeries(h, i);
    }
  }

  /**
   * The two scripts agree: the propagation script's temporal integral is
   * what the second-order script's `run_simulation` returns for a single
   * poke of 1.0 at the centre.
   */
  lemma AgreesWithSecondOrder(squash: real -> real)
    ensures SecondOrder.Accumulated([(Center, 1.0)], squash) == Ok(TimeSum(Spacetime(squash), LatticeSize))
  {
    assert [(Center as int, 1.0)][..0] == [];
    assert SecondOrder.Start([(Center, 1.0)]).value == Initial();
  }
}
