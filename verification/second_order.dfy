/**
 * The stand-alone second-order script on a ring of 100 sites: each run
 * starts from zeros with the poked sites overwritten, takes 199 steps of
 * next = squash(1.0·g + 0.5·(roll(g, 1) + roll(g, -1))) and returns the
 * running total of the 200 states. Four runs (no poke, poke A, poke B, both)
 * give the first-order kernels K_a, K_b and the synergy H_ab.
 */
module SecondOrder {
  import opened Results
  import opened Vectors
  import opened History
  import opened Sensitivity
  import Ring
  import LatticeSim

  const LatticeSize: nat := 100
  const TimeSteps: nat := 200
  const Alpha: real := 1.0
  const Beta: real := 0.5
  const PokeA: int := LatticeSize / 3
  const PokeB: int := (LatticeSize * 2) / 3
  const PokeValue: real := 1.0

  /** A dict of pokes as its (position, value) items in insertion order. */
  type Pokes = seq<(int, real)>

  /**
   * The state at t = 0: zeros, then `g[position] = value` for every item in
   * turn, a negative position counting from the end. A position outside
   * [-100, 100) is an IndexError.
   */
  function Start(pokes: Pokes): (r: Result<seq<real>>)
    ensures r.Ok? <==> forall k :: 0 <= k < |pokes| ==> LatticeSim.InBounds(pokes[k].0, LatticeSize)
    ensures r.Err? ==> r.error == IndexError
    ensures r.Ok? ==> |r.value| == LatticeSize
    decreases |pokes|
  {
    if pokes == [] then Ok(Zeros(LatticeSize))
    else
      var front := pokes[..|pokes| - 1];
      var (pos, v) := pokes[|pokes| - 1];
      assert forall k :: 0 <= k < |front| ==> front[k] == pokes[k];
      match Start(front)
      case Err(e) => Err(e)
      case Ok(g) =>
        if LatticeSim.InBounds(pos, LatticeSize) then Ok(g[LatticeSim.Wrap(pos, LatticeSize) := v])
        else Err(IndexError)
  }

  /** Item k writes site f. */
  predicate Writes(pokes: Pokes, k: nat, f: nat)
    requires k < |pokes|
  {
    LatticeSim.InBounds(pokes[k].0, LatticeSize) && LatticeSim.Wrap(pokes[k].0, LatticeSize) == f
  }

  /** A site no item writes stays zero. */
  lemma {:induction false} StartUnpoked(pokes: Pokes, f: nat)
    requires Start(pokes).Ok? && f < LatticeSize
    requires forall k :: 0 <= k < |pokes| ==> !Writes(pokes, k, f)
    ensures Start(pokes).value[f] == 0.0
    decreases |pokes|
  {
    if pokes != [] {
      var front := pokes[..|pokes| - 1];
      assert forall k :: 0 <= k < |front| ==> front[k] == pokes[k];
      assert forall k :: 0 <= k < |front| ==> !Writes(front, k, f) by {
        forall k | 0 <= k < |front|
          ensures !Writes(front, k, f)
        {
          assert !Writes(pokes, k, f);
        }
      }
      StartUnpoked(front, f);
      var (pos, v) := pokes[|pokes| - 1];
      assert !Writes(pokes, |pokes| - 1, f);
      assert Start(pokes).value == Start(front).value[LatticeSim.Wrap(pos, LatticeSize) := v];
    }
  }

  /**
   * Overwriting, not adding: a site holds the value of the last item that
   * writes it, whatever earlier items wrote there.
   */
  lemma {:induction false} StartOverwrites(pokes: Pokes, k: nat, f: nat)
    requires Start(pokes).Ok? && k < |pokes| && f < LatticeSize
    requires Writes(pokes, k, f)
    requires forall k' :: k < k' < |pokes| ==> !Writes(pokes, k', f)
    ensures Start(pokes).value[f] == pokes[k].1
    decreases |pokes|
  {
    var front := pokes[..|pokes| - 1];
    assert forall j :: 0 <= j < |front| ==> front[j] == pokes[j];
    if k < |pokes| - 1 {
      assert !Writes(pokes, |pokes| - 1, f);
      assert Writes(front, k, f);
      forall k' | k < k' < |front|
        ensures !Writes(front, k', f)
      {
        assert !Writes(pokes, k', f);
      }
      StartOverwrites(front, k, f);
    }
  }

  /** `run_simulation(pokes)`: the temporal integral of the 200 states from the poked start. */
  function Accumulated(pokes: Pokes, squash: real -> real): (r: Result<seq<real>>)
    ensures r.Ok? <==> Start(pokes).Ok?
    ensures r.Err? ==> r.error == IndexError
    ensures r.Ok? ==> |r.value| == LatticeSize
  {
    match Start(pokes)
    case Err(e) => Err(e)
    case Ok(g0) =>
      Ring.StepRuleKeepsLength(Alpha, Beta, squash, LatticeSize);
      OrbitShape(Ring.StepRule(Alpha, Beta, squash), g0, TimeSteps);
      Ok(TimeSum(Orbit(Ring.StepRule(Alpha, Beta, squash), g0, TimeSteps), LatticeSize))
  }

  /**
   * `run_simulation`: the poke loop overwrites sites of a zero state, then
   * the accumulator starts as a copy of the state and gains every new state
   * of the 199 steps, each computed with numpy's rolls.
   */
  method RunSimulation(pokes: Pokes, squash: real -> real) returns (r: Result<seq<real>>)
    ensures r == Accumulated(pokes, squash)
  {
    var current := Zeros(LatticeSize);
    for k := 0 to |pokes|
      invariant Start(pokes[..k]) == Ok(current)
    {
      var (pos, v) := pokes[k];
      assert pokes[..k + 1][..k] == pokes[..k];
      if !LatticeSim.InBounds(pos, LatticeSize) {
        return Err(IndexError);
      }
      current := current[LatticeSim.Wrap(pos, LatticeSize) := v];
    }
    assert pokes[..|pokes|] == pokes;
    ghost var g0 := current;
    ghost var rule := Ring.StepRule(Alpha, Beta, squash);
    Ring.StepRuleKeepsLength(Alpha, Beta, squash, LatticeSize);
    OrbitShape(rule, g0, 1);
    assert TimeSum(Orbit(rule, g0, 1), LatticeSize) == Add(Zeros(LatticeSize), g0);
    var acc := current;
    for t := 0 to TimeSteps - 1
      invariant |current| == LatticeSize
      invariant current == Orbit(rule, g0, t + 1)[t]
      invariant Rectangular(Orbit(rule, g0, t + 1), LatticeSize)
      invariant acc == TimeSum(Orbit(rule, g0, t + 1), LatticeSize)
    {
      var next := Ring.RollUpdate(Alpha, Beta, squash, current);
      assert next == rule(current);
      OrbitSnoc(rule, g0, t + 1);
      OrbitShape(rule, g0, t + 2);
      assert Orbit(rule, g0, t + 2)[..t + 1] == Orbit(rule, g0, t + 1);
      acc := Add(acc, next);
      current := next;
    }
    return Ok(acc);
  }

  /** Zero is a fixed point of the rule, so the zero start stays zero at every step. */
  lemma {:induction false} ZeroOrbit(squash: real -> real, t: nat)
    requires squash(0.0) == 0.0
    ensures Iterate(Ring.StepRule(Alpha, Beta, squash), Zeros(LatticeSize), t) == Zeros(LatticeSize)
  {
    if t > 0 {
      var rule, z := Ring.StepRule(Alpha, Beta, squash), Zeros(LatticeSize);
      ZeroOrbit(squash, t - 1);
      assert Iterate(rule, z, t) == rule(z);
      assert rule(z) == Ring.Step(Alpha, Beta, squash, z);
      Ring.StepZero(Alpha, Beta, squash, LatticeSize);
    }
  }

  /** With no pokes and squash(0) = 0 (tanh(0) = 0) the result is all zeros. */
  lemma NoPokesNoResponse(squash: real -> real)
    requires squash(0.0) == 0.0
    ensures Accumulated([], squash) == Ok(Zeros(LatticeSize))
  {
    var rule, z := Ring.StepRule(Alpha, Beta, squash), Zeros(LatticeSize);
    Ring.StepRuleKeepsLength(Alpha, Beta, squash, LatticeSize);
    var cube := Orbit(rule, z, TimeSteps);
    OrbitShape(rule, z, TimeSteps);
    forall t | 0 <= t < TimeSteps
      ensures AllZero(cube[t])
    {
      ZeroOrbit(squash, t);
    }
    ZeroHistory(cube, LatticeSize);
    assert TimeSum(cube, LatticeSize) == z;
  }

  /** The four responses and the kernels the script derives from them. */
  datatype Analysis = Analysis(ka: seq<real>, kb: seq<real>, linearSum: seq<real>, actual: seq<real>, hab: seq<real>)

  /**
   * `K_a = Y_a - Y_base`, `K_b = Y_b - Y_base`, `Y_linear_sum = K_a + K_b`,
   * `Y_actual = Y_ab - Y_base` and `H_ab = Y_actual - Y_linear_sum`.
   */
  function Analyse(ybase: seq<real>, ya: seq<real>, yb: seq<real>, yab: seq<real>): (an: Analysis)
    requires |ya| == |ybase| && |yb| == |ybase| && |yab| == |ybase|
    ensures |an.ka| == |an.kb| == |an.linearSum| == |an.actual| == |an.hab| == |ybase|
    ensures an.ka == FirstOrder(ya, ybase) && an.kb == FirstOrder(yb, ybase)
    ensures Add(an.linearSum, an.hab) == an.actual
    ensures an.hab == Synergy(yab, ya, yb, ybase)
  {
    var ka, kb := Sub(ya, ybase), Sub(yb, ybase);
    var linear := Add(ka, kb);
    var actual := Sub(yab, ybase);
    var h := Sub(actual, linear);
    assert Add(linear, h) == actual;
    assert h == Synergy(yab, ya, yb, ybase) by {
      forall i | 0 <= i < |ybase|
        ensures h[i] == Synergy(yab, ya, yb, ybase)[i]
      {
        SynergyAt(yab, ya, yb, ybase, i);
      }
    }
    Analysis(ka, kb, linear, actual, h)
  }

  /** The module-level script: the four runs and their analysis; every poke is in range. */
  function Script(squash: real -> real): (r: Result<Analysis>)
    ensures r.Ok?
  {
    assert LatticeSim.InBounds(PokeA, LatticeSize) && LatticeSim.InBounds(PokeB, LatticeSize);
    var ybase := Accumulated([], squash).value;
    var ya := Accumulated([(PokeA, PokeValue)], squash).value;
    var yb := Accumulated([(PokeB, PokeValue)], squash).value;
    var yab := Accumulated([(PokeA, PokeValue), (PokeB, PokeValue)], squash).value;
    Ok(Analyse(ybase, ya, yb, yab))
  }

  /** With tanh(0) = 0 the baseline vanishes and each first-order kernel is its single run's response. */
  lemma KernelIsResponse(squash: real -> real)
    requires squash(0.0) == 0.0
    ensures Script(squash).value.ka == Accumulated([(PokeA, PokeValue)], squash).value
    ensures Script(squash).value.kb == Accumulated([(PokeB, PokeValue)], squash).value
  {
    NoPokesNoResponse(squash);
    assert LatticeSim.InBounds(PokeA, LatticeSize) && LatticeSim.InBounds(PokeB, LatticeSize);
  }

  /** With the identity in place of tanh one step is linear. */
  lemma StepLinear(squash: real -> real, g: seq<real>, h: seq<real>)
    requires forall x :: squash(x) == x
    requires |g| == |h|
    ensures Ring.Step(Alpha, Beta, squash, Add(g, h)) == Add(Ring.Step(Alpha, Beta, squash, g), Ring.Step(Alpha, Beta, squash, h))
  {
    var gh := Add(g, h);
    var n := |g|;
    forall i | 0 <= i < n
      ensures Ring.Step(Alpha, Beta, squash, gh)[i] == Ring.Step(Alpha, Beta, squash, g)[i] + Ring.Step(Alpha, Beta, squash, h)[i]
    {
      var l, r := Ring.Left(i, n), Ring.Right(i, n);
      assert gh[i] == g[i] + h[i] && gh[l] == g[l] + h[l] && gh[r] == g[r] + h[r];
      assert Ring.Drives(Alpha, Beta, gh)[i] == Ring.Drive(Alpha, Beta, gh, i);
      assert Ring.Drives(Alpha, Beta, g)[i] == Ring.Drive(Alpha, Beta, g, i);
      assert Ring.Drives(Alpha, Beta, h)[i] == Ring.Drive(Alpha, Beta, h, i);
    }
  }

  /** With the identity in place of tanh the whole orbit is linear in the start. */
  lemma {:induction false} IterateLinear(squash: real -> real, g: seq<real>, h: seq<real>, t: nat)
    requires forall x :: squash(x) == x
    requires |g| == |h|
    ensures |Iterate(Ring.StepRule(Alpha, Beta, squash), g, t)| == |g| && |Iterate(Ring.StepRule(Alpha, Beta, squash), h, t)| == |g|
    ensures Iterate(Ring.StepRule(Alpha, Beta, squash), Add(g, h), t) == Add(Iterate(Ring.StepRule(Alpha, Beta, squash), g, t), Iterate(Ring.StepRule(Alpha, Beta, squash), h, t))
  {
    Ring.StepRuleKeepsLength(Alpha, Beta, squash, |g|);
    IterateLength(Ring.StepRule(Alpha, Beta, squash), g, t);
    IterateLength(Ring.StepRule(Alpha, Beta, squash), h, t);
    if t > 0 {
      IterateLinear(squash, g, h, t - 1);
      StepLinear(squash, Iterate(Ring.StepRule(Alpha, Beta, squash), g, t - 1), Iterate(Ring.StepRule(Alpha, Beta, squash), h, t - 1));
    }
  }

  /** Two pokes at different sites start from the sum of the single-poke starts. */
  lemma StartSplits(a: int, b: int, v: real)
    requires LatticeSim.InBounds(a, LatticeSize) && LatticeSim.InBounds(b, LatticeSize)
    requires LatticeSim.Wrap(a, LatticeSize) != LatticeSim.Wrap(b, LatticeSize)
    ensures Start([(a, v), (b, v)]) == Ok(Add(Start([(a, v)]).value, Start([(b, v)]).value))
  {
    assert [(a, v), (b, v)][..1] == [(a, v)];
    assert [(a, v)][..0] == [] && [(b, v)][..0] == [];
    var wa, wb := LatticeSim.Wrap(a, LatticeSize), LatticeSim.Wrap(b, LatticeSize);
    var z := Zeros(LatticeSize);
    var pair := z[wa := v][wb := v];
    var sum := Add(z[wa := v], z[wb := v]);
    forall i | 0 <= i < LatticeSize
      ensures pair[i] == sum[i]
    {
    }
    assert pair == sum;
  }

  /**
   * The synergy kernel measures nonlinearity only: with the identity in place
   * of tanh, H_ab is zero at every site.
   */
  lemma NoSynergyWhenLinear(squash: real -> real)
    requires forall x :: squash(x) == x
    ensures AllZero(Script(squash).value.hab)
  {
    var rule := Ring.StepRule(Alpha, Beta, squash);
    assert LatticeSim.InBounds(PokeA, LatticeSize) && LatticeSim.InBounds(PokeB, LatticeSize);
    NoPokesNoResponse(squash);
    StartSplits(PokeA, PokeB, PokeValue);
    var ga, gb := Start([(PokeA, PokeValue)]).value, Start([(PokeB, PokeValue)]).value;
    var gab := Start([(PokeA, PokeValue), (PokeB, PokeValue)]).value;
    Ring.StepRuleKeepsLength(Alpha, Beta, squash, LatticeSize);
    var ca, cb, cab := Orbit(rule, ga, TimeSteps), Orbit(rule, gb, TimeSteps), Orbit(rule, gab, TimeSteps);
    OrbitShape(rule, ga, TimeSteps);
    OrbitShape(rule, gb, TimeSteps);
    OrbitShape(rule, gab, TimeSteps);
    forall t | 0 <= t < TimeSteps
      ensures cab[t] == Add(ca[t], cb[t])
    {
      IterateLinear(squash, ga, gb, t);
    }
    TimeSumAdd(ca, cb, cab, LatticeSize);
    var an := Script(squash).value;
    forall i | 0 <= i < LatticeSize
      ensures an.hab[i] == 0.0
    {
      SynergyAt(Accumulated([(PokeA, PokeValue), (PokeB, PokeValue)], squash).value,
        Accumulated([(PokeA, PokeValue)], squash).value, Accumulated([(PokeB, PokeValue)], squash).value,
        Accumulated([], squash).value, i);
    }
  }
}
