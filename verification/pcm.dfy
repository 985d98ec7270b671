/**
 * A phase-change-material lattice tracked by enthalpy. Each node's enthalpy
 * is converted to a temperature and a melt fraction (phase 0 solid, 1
 * liquid): below sh·mp the node is solid at h/sh, up to sh·mp + lh it melts
 * at the melting point, above it is liquid at (h - lh)/sh. The heat-flow
 * step mixes each node with its two neighbours, an edge node standing in for
 * its missing neighbour.
 */
module Pcm {
  import opened Results
  import opened Vectors
  import Ring

  /** A material: melting point, latent heat, specific heat, conductivity and density. */
  datatype PcmProperties = PcmProperties(
    name: string,
    meltingPoint: real,
    latentHeat: real,
    specificHeat: real,
    thermalConductivity: real,
    density: real)

  /** A node's temperature and melt fraction. */
  datatype NodeState = NodeState(temperature: real, phase: real)

  /**
   * The temperature and melt fraction of a node holding enthalpy h. Heat is
   * accounted for exactly: the enthalpy is sh·T plus lh times the melted
   * fraction, and on the melting plateau the node sits at the melting point.
   */
  function Thaw(pcm: PcmProperties, h: real): NodeState
    requires pcm.specificHeat != 0.0
  {
    var mp, lh, sh := pcm.meltingPoint, pcm.latentHeat, pcm.specificHeat;
    if h < sh * mp then NodeState(h / sh, 0.0)
    else if h < sh * mp + lh then NodeState(mp, (h - sh * mp) / lh)
    else NodeState((h - lh) / sh, 1.0)
  }

  /**
   * The melt fraction is in [0, 1]: 0 below sh·mp, on the melting plateau
   * the node is at the melting point and not fully melted, and from sh·mp + lh
   * on it is fully liquid.
   */
  lemma ThawPhases(pcm: PcmProperties, h: real)
    requires pcm.specificHeat != 0.0
    ensures var s := Thaw(pcm, h);
      && 0.0 <= s.phase <= 1.0
      && (h < pcm.specificHeat * pcm.meltingPoint ==> s.phase == 0.0)
      && (pcm.specificHeat * pcm.meltingPoint <= h < pcm.specificHeat * pcm.meltingPoint + pcm.latentHeat ==>
            s.temperature == pcm.meltingPoint && s.phase < 1.0)
      && (pcm.specificHeat * pcm.meltingPoint <= h && pcm.specificHeat * pcm.meltingPoint + pcm.latentHeat <= h ==>
            s.phase == 1.0)
  {
  }

  /**
   * Heat is accounted for exactly: the enthalpy is sh·T plus lh times the
   * melted fraction.
   */
  lemma ThawConservesHeat(pcm: PcmProperties, h: real)
    requires pcm.specificHeat != 0.0
    ensures var s := Thaw(pcm, h);
      pcm.specificHeat * s.temperature + pcm.latentHeat * s.phase == h
  {
  }

  /**
   * The conversion is continuous: the solid and liquid formulas both give
   * the melting point where they meet the plateau.
   */
  lemma ThawContinuous(pcm: PcmProperties)
    requires pcm.specificHeat != 0.0 && pcm.latentHeat >= 0.0
    ensures var edge := pcm.specificHeat * pcm.meltingPoint;
      Thaw(pcm, edge).temperature == pcm.meltingPoint && edge / pcm.specificHeat == pcm.meltingPoint
    ensures var top := pcm.specificHeat * pcm.meltingPoint + pcm.latentHeat;
      Thaw(pcm, top).temperature == pcm.meltingPoint && (top - pcm.latentHeat) / pcm.specificHeat == pcm.meltingPoint
  {
  }

  /** Dividing by a positive c keeps the order. */
  lemma DivMono(a: real, b: real, c: real)
    requires c > 0.0 && a <= b
    ensures a / c <= b / c
  {
    assert b / c - a / c == (b - a) / c;
  }

  /** A dividend at most c·m gives a quotient at most m. */
  lemma DivBelow(a: real, c: real, m: real)
    requires c > 0.0 && a <= c * m
    ensures a / c <= m
  {
    DivMono(a, c * m, c);
    assert c * m / c == m;
  }

  /** A dividend at least c·m gives a quotient at least m. */
  lemma DivAbove(a: real, c: real, m: real)
    requires c > 0.0 && c * m <= a
    ensures m <= a / c
  {
    DivMono(c * m, a, c);
    assert c * m / c == m;
  }

  /** With positive specific and latent heat, more enthalpy never means a colder or less melted node. */
  lemma ThawMonotone(pcm: PcmProperties, h1: real, h2: real)
    requires pcm.specificHeat > 0.0 && pcm.latentHeat > 0.0 && h1 <= h2
    ensures Thaw(pcm, h1).temperature <= Thaw(pcm, h2).temperature
    ensures Thaw(pcm, h1).phase <= Thaw(pcm, h2).phase
  {
    var lo := pcm.specificHeat * pcm.meltingPoint;
    var hi := lo + pcm.latentHeat;
    if h1 < lo {
      if h2 < lo {
        StaysSolid(pcm, h1, h2);
      } else if h2 < hi {
        SolidToMelting(pcm, h1, h2);
      } else {
        SolidToLiquid(pcm, h1, h2);
      }
    } else if h1 < hi {
      if h2 < hi {
        StaysMelting(pcm, h1, h2);
      } else {
        MeltingToLiquid(pcm, h1, h2);
      }
    } else {
      StaysLiquid(pcm, h1, h2);
    }
  }

  /** The conversion of a solid node. */
  lemma ThawSolid(pcm: PcmProperties, h: real)
    requires pcm.specificHeat != 0.0 && h < pcm.specificHeat * pcm.meltingPoint
    ensures Thaw(pcm, h) == NodeState(h / pcm.specificHeat, 0.0)
  {
  }

  /** The conversion of a melting node. */
  lemma ThawMelting(pcm: PcmProperties, h: real)
    requires pcm.specificHeat != 0.0
    requires pcm.specificHeat * pcm.meltingPoint <= h < pcm.specificHeat * pcm.meltingPoint + pcm.latentHeat
    ensures Thaw(pcm, h) == NodeState(pcm.meltingPoint, (h - pcm.specificHeat * pcm.meltingPoint) / pcm.latentHeat)
  {
  }

  /** The conversion of a liquid node. */
  lemma ThawLiquid(pcm: PcmProperties, h: real)
    requires pcm.specificHeat != 0.0 && pcm.latentHeat > 0.0
    requires pcm.specificHeat * pcm.meltingPoint + pcm.latentHeat <= h
    ensures Thaw(pcm, h) == NodeState((h - pcm.latentHeat) / pcm.specificHeat, 1.0)
  {
  }

  /** Two solid nodes: the warmer one has more enthalpy; neither has melted. */
  lemma StaysSolid(pcm: PcmProperties, h1: real, h2: real)
    requires pcm.specificHeat > 0.0 && h1 <= h2 < pcm.specificHeat * pcm.meltingPoint
    ensures Thaw(pcm, h1).temperature <= Thaw(pcm, h2).temperature
    ensures Thaw(pcm, h1).phase == Thaw(pcm, h2).phase == 0.0
  {
    ThawSolid(pcm, h1);
    ThawSolid(pcm, h2);
    DivMono(h1, h2, pcm.specificHeat);
  }

  /** A solid node is below the melting point, where a melting node sits, and has not begun to melt. */
  lemma SolidToMelting(pcm: PcmProperties, h1: real, h2: real)
    requires pcm.specificHeat > 0.0 && pcm.latentHeat > 0.0
    requires h1 < pcm.specificHeat * pcm.meltingPoint <= h2 < pcm.specificHeat * pcm.meltingPoint + pcm.latentHeat
    ensures Thaw(pcm, h1).temperature <= Thaw(pcm, h2).temperature
    ensures Thaw(pcm, h1).phase <= Thaw(pcm, h2).phase
  {
    ThawSolid(pcm, h1);
    ThawMelting(pcm, h2);
    DivBelow(h1, pcm.specificHeat, pcm.meltingPoint);
    DivAbove(h2 - pcm.specificHeat * pcm.meltingPoint, pcm.latentHeat, 0.0);
  }

  /** A solid node is below the melting point and a liquid node above it. */
  lemma SolidToLiquid(pcm: PcmProperties, h1: real, h2: real)
    requires pcm.specificHeat > 0.0 && pcm.latentHeat > 0.0
    requires h1 < pcm.specificHeat * pcm.meltingPoint && pcm.specificHeat * pcm.meltingPoint + pcm.latentHeat <= h2
    ensures Thaw(pcm, h1).temperature <= Thaw(pcm, h2).temperature
    ensures Thaw(pcm, h1).phase < Thaw(pcm, h2).phase
  {
    ThawSolid(pcm, h1);
    ThawLiquid(pcm, h2);
    DivBelow(h1, pcm.specificHeat, pcm.meltingPoint);
    DivAbove(h2 - pcm.latentHeat, pcm.specificHeat, pcm.meltingPoint);
  }

  /** Two melting nodes sit at the melting point, and the one with more enthalpy has melted more. */
  lemma StaysMelting(pcm: PcmProperties, h1: real, h2: real)
    requires pcm.specificHeat > 0.0 && pcm.latentHeat > 0.0
    requires pcm.specificHeat * pcm.meltingPoint <= h1 <= h2 < pcm.specificHeat * pcm.meltingPoint + pcm.latentHeat
    ensures Thaw(pcm, h1).temperature == Thaw(pcm, h2).temperature == pcm.meltingPoint
    ensures Thaw(pcm, h1).phase <= Thaw(pcm, h2).phase
  {
    ThawMelting(pcm, h1);
    ThawMelting(pcm, h2);
    DivMono(h1 - pcm.specificHeat * pcm.meltingPoint, h2 - pcm.specificHeat * pcm.meltingPoint, pcm.latentHeat);
  }

  /** A melting node sits at the melting point, not yet fully melted; a liquid node is above it. */
  lemma MeltingToLiquid(pcm: PcmProperties, h1: real, h2: real)
    requires pcm.specificHeat > 0.0 && pcm.latentHeat > 0.0
    requires pcm.specificHeat * pcm.meltingPoint <= h1 < pcm.specificHeat * pcm.meltingPoint + pcm.latentHeat <= h2
    ensures Thaw(pcm, h1).temperature <= Thaw(pcm, h2).temperature
    ensures Thaw(pcm, h1).phase <= Thaw(pcm, h2).phase
  {
    ThawMelting(pcm, h1);
    ThawLiquid(pcm, h2);
    DivBelow(h1 - pcm.specificHeat * pcm.meltingPoint, pcm.latentHeat, 1.0);
    DivAbove(h2 - pcm.latentHeat, pcm.specificHeat, pcm.meltingPoint);
  }

  /** Two liquid nodes: the warmer one has more enthalpy; both have fully melted. */
  lemma StaysLiquid(pcm: PcmProperties, h1: real, h2: real)
    requires pcm.specificHeat > 0.0 && pcm.latentHeat > 0.0
    requires pcm.specificHeat * pcm.meltingPoint + pcm.latentHeat <= h1 <= h2
    ensures Thaw(pcm, h1).temperature <= Thaw(pcm, h2).temperature
    ensures Thaw(pcm, h1).phase == Thaw(pcm, h2).phase == 1.0
  {
    ThawLiquid(pcm, h1);
    ThawLiquid(pcm, h2);
    DivMono(h1 - pcm.latentHeat, h2 - pcm.latentHeat, pcm.specificHeat);
  }

  /**
   * A lattice built at temperature T0 starts solid at T0. For a material
   * with positive specific and latent heat that agrees with the conversion of
   * its enthalpy sh·T0 exactly when T0 is not above the melting point.
   */
  lemma InitialStateAgrees(pcm: PcmProperties, t0: real)
    requires pcm.specificHeat > 0.0 && pcm.latentHeat > 0.0
    ensures Thaw(pcm, pcm.specificHeat * t0) == NodeState(t0, 0.0) <==> t0 <= pcm.meltingPoint
  {
    var mp, sh := pcm.meltingPoint, pcm.specificHeat;
    if t0 < mp {
      assert sh * t0 < sh * mp;
    } else if t0 > mp {
      assert sh * t0 > sh * mp;
    }
  }

  /** The `num_nodes` copies of a value Python's list repetition builds (none when num_nodes <= 0). */
  function Repeat(x: real, n: int): (r: seq<real>)
    ensures |r| == (if n < 0 then 0 else n)
    ensures forall i :: 0 <= i < |r| ==> r[i] == x
  {
    if n <= 0 then [] else seq(n, _ => x)
  }

  class PcmLattice {
    const pcm: PcmProperties
    const numNodes: int
    var enthalpy: seq<real>
    var temperature: seq<real>
    var phase: seq<real>

    /** The node count the arrays have. */
    function Count(): nat
    {
      if numNodes < 0 then 0 else numNodes
    }

    predicate Valid()
      reads this
    {
      |enthalpy| == Count() && |temperature| == Count() && |phase| == Count()
    }

    /** Every node's temperature and phase are the conversion of its enthalpy. */
    predicate Consistent()
      reads this
      requires pcm.specificHeat != 0.0
    {
      Valid() &&
      forall i :: 0 <= i < Count() ==> Thaw(pcm, enthalpy[i]) == NodeState(temperature[i], phase[i])
    }

    /** `__init__`: every node at enthalpy sh·T0, temperature T0 and phase 0. */
    constructor (pcm: PcmProperties, numNodes: int, initialTemp: real)
      ensures Valid()
      ensures this.pcm == pcm && this.numNodes == numNodes
      ensures enthalpy == Repeat(pcm.specificHeat * initialTemp, numNodes)
      ensures temperature == Repeat(initialTemp, numNodes)
      ensures phase == Repeat(0.0, numNodes)
    {
      this.pcm := pcm;
      this.numNodes := numNodes;
      enthalpy := Repeat(pcm.specificHeat * initialTemp, numNodes);
      temperature := Repeat(initialTemp, numNodes);
      phase := Repeat(0.0, numNodes);
    }

    /** `update_temperature_and_phase`: converts every node's enthalpy; the enthalpy itself is left alone. */
    method UpdateTemperatureAndPhase()
      requires Valid() && pcm.specificHeat != 0.0
      modifies this
      ensures Consistent()
      ensures enthalpy == old(enthalpy)
    {
      var mp, lh, sh := pcm.meltingPoint, pcm.latentHeat, pcm.specificHeat;
      var h := enthalpy;
      var temps: seq<real> := [];
      var phases: seq<real> := [];
      for i := 0 to Count()
        invariant |temps| == i && |phases| == i
        invariant forall k :: 0 <= k < i ==> Thaw(pcm, h[k]) == NodeState(temps[k], phases[k])
      {
        if h[i] < sh * mp {
          temps := temps + [h[i] / sh];
          phases := phases + [0.0];
        } else if h[i] < sh * mp + lh {
          temps := temps + [mp];
          phases := phases + [(h[i] - sh * mp) / lh];
        } else {
          temps := temps + [(h[i] - lh) / sh];
          phases := phases + [1.0];
        }
      }
      temperature := temps;
      phase := phases;
    }

    /** numpy accepts an index in [-num_nodes, num_nodes). */
    predicate Indexable(node: int)
    {
      -(Count() as int) <= node < Count()
    }

    /** The array position numpy reads for `node`: a negative index counts from the end. */
    function Slot(node: int): int
    {
      if node < 0 then node + Count() else node
    }

    /**
     * `apply_perturbation`: adds sh·ΔT to one node's enthalpy and reconverts
     * every node. An index outside [-num_nodes, num_nodes) raises IndexError
     * before anything is written.
     */
    method ApplyPerturbation(node: int, deltaTemp: real) returns (st: Status)
      requires Valid() && pcm.specificHeat != 0.0
      modifies this
      ensures Indexable(node) ==>
        st == Done && Consistent() &&
        enthalpy == old(enthalpy)[Slot(node) := old(enthalpy)[Slot(node)] + pcm.specificHeat * deltaTemp]
      ensures !(Indexable(node)) ==>
        st == Failed(IndexError) && Valid() &&
        enthalpy == old(enthalpy) && temperature == old(temperature) && phase == old(phase)
    {
      var deltaH := pcm.specificHeat * deltaTemp;
      var current := enthalpy;
      if !(Indexable(node)) {
        return Failed(IndexError);
      }
      var k := Slot(node);
      current := current[k := current[k] + deltaH];
      enthalpy := current;
      UpdateTemperatureAndPhase();
      return Done;
    }
  }

  /** A perturbation of ΔT adds exactly sh·ΔT to the lattice's total enthalpy. */
  lemma PerturbationAddsHeat(h: seq<real>, k: nat, pcm: PcmProperties, deltaTemp: real)
    requires k < |h|
    ensures Sum(h[k := h[k] + pcm.specificHeat * deltaTemp]) == Sum(h) + pcm.specificHeat * deltaTemp
  {
    SumUpdate(h, k, pcm.specificHeat * deltaTemp);
  }

  /** The enthalpy with its first and last entries repeated at the ends. */
  function Padded(h: seq<real>): (p: seq<real>)
    requires |h| >= 1
    ensures |p| == |h| + 2
  {
    [h[0]] + h + [h[|h| - 1]]
  }

  /** The left neighbour's enthalpy; the node's own at the left edge. */
  function Before(h: seq<real>, i: nat): real
    requires i < |h|
  {
    if i == 0 then h[0] else h[i - 1]
  }

  /** The right neighbour's enthalpy; the node's own at the right edge. */
  function After(h: seq<real>, i: nat): real
    requires i < |h|
  {
    if i == |h| - 1 then h[i] else h[i + 1]
  }

  /**
   * Position i of `padded[:-2]` and of `padded[2:]` hold the two neighbours
   * of node i, which is how the step below reads them.
   */
  lemma PaddedNeighbours(h: seq<real>)
    requires |h| >= 1
    ensures forall i :: 0 <= i < |h| ==> Padded(h)[i] == Before(h, i) && Padded(h)[i + 2] == After(h, i)
  {
  }

  /**
   * Node i after one step: α = conductivity times its own enthalpy plus
   * β = conductivity/2 times the sum of its two neighbours, an edge node
   * counting itself for the missing one.
   */
  function Flowed(pcm: PcmProperties, h: seq<real>, i: nat): real
    requires i < |h|
  {
    pcm.thermalConductivity * h[i] + 0.5 * pcm.thermalConductivity * (Before(h, i) + After(h, i))
  }

  /**
   * `heat_flow_step`: every node flowed at once. An empty tensor has no
   * first element to pad with.
   */
  function HeatFlowStep(pcm: PcmProperties, h: seq<real>): (r: Result<seq<real>>)
    ensures h == [] <==> r == Err(TfInvalidArgument)
    ensures r.Ok? ==> |r.value| == |h| && forall i :: 0 <= i < |h| ==> r.value[i] == Flowed(pcm, h, i)
  {
    if h == [] then Err(TfInvalidArgument)
    else Ok(seq(|h|, i requires 0 <= i < |h| => Flowed(pcm, h, i)))
  }

  /**
   * Interior nodes read both neighbours; an edge node reads itself in place
   * of the neighbour it lacks.
   */
  lemma HeatFlowEdges(pcm: PcmProperties, h: seq<real>)
    requires |h| >= 2
    ensures var k, r := pcm.thermalConductivity, HeatFlowStep(pcm, h).value;
      && r[0] == k * h[0] + 0.5 * k * (h[0] + h[1])
      && r[|h| - 1] == k * h[|h| - 1] + 0.5 * k * (h[|h| - 2] + h[|h| - 1])
      && forall i :: 0 < i < |h| - 1 ==> r[i] == k * h[i] + 0.5 * k * (h[i - 1] + h[i + 1])
  {
  }

  /** One node of the step is linear in the profile. */
  lemma FlowedLinear(pcm: PcmProperties, g: seq<real>, h: seq<real>, i: nat)
    requires |g| == |h| && i < |h|
    ensures Flowed(pcm, Add(g, h), i) == Flowed(pcm, g, i) + Flowed(pcm, h, i)
  {
    var gh := Add(g, h);
    assert gh[i] == g[i] + h[i];
    assert Before(gh, i) == Before(g, i) + Before(h, i);
    assert After(gh, i) == After(g, i) + After(h, i);
    Distribute(pcm.thermalConductivity, g[i], h[i], Before(g, i) + After(g, i), Before(h, i) + After(h, i));
  }

  /** k·(a+b) + k/2·(c+d) regrouped. */
  lemma Distribute(k: real, a: real, b: real, c: real, d: real)
    ensures k * (a + b) + 0.5 * k * (c + d) == (k * a + 0.5 * k * c) + (k * b + 0.5 * k * d)
  {
  }

  /**
   * The step is linear: stepping a sum of enthalpy profiles is the sum of
   * the stepped profiles, so its Jacobian does not depend on the state.
   */
  lemma HeatFlowLinear(pcm: PcmProperties, g: seq<real>, h: seq<real>)
    requires |g| == |h| && h != []
    ensures HeatFlowStep(pcm, Add(g, h)).Ok? && HeatFlowStep(pcm, g).Ok? && HeatFlowStep(pcm, h).Ok?
    ensures HeatFlowStep(pcm, Add(g, h)).value == Add(HeatFlowStep(pcm, g).value, HeatFlowStep(pcm, h).value)
  {
    forall i | 0 <= i < |h|
      ensures Flowed(pcm, Add(g, h), i) == Flowed(pcm, g, i) + Flowed(pcm, h, i)
    {
      FlowedLinear(pcm, g, h, i);
    }
  }

  /** A node whose neighbours and itself all hold c flows to 2·conductivity·c. */
  lemma FlowedUniform(pcm: PcmProperties, h: seq<real>, c: real, i: nat)
    requires i < |h| && h[i] == c && Before(h, i) == c && After(h, i) == c
    ensures Flowed(pcm, h, i) == 2.0 * pcm.thermalConductivity * c
  {
    Doubled(pcm.thermalConductivity, h[i], Before(h, i) + After(h, i), c);
  }

  /** k·c plus half of k·2c is 2·k·c. */
  lemma Doubled(k: real, own: real, around: real, c: real)
    requires own == c && around == c + c
    ensures k * own + 0.5 * k * around == 2.0 * k * c
  {
  }

  /**
   * A uniform profile at c is mapped to a uniform profile at 2·conductivity·c:
   * total heat is kept only when the conductivity is one half.
   */
  lemma HeatFlowUniform(pcm: PcmProperties, h: seq<real>, c: real)
    requires h != [] && forall i :: 0 <= i < |h| ==> h[i] == c
    ensures HeatFlowStep(pcm, h).Ok?
    ensures forall i :: 0 <= i < |h| ==> HeatFlowStep(pcm, h).value[i] == 2.0 * pcm.thermalConductivity * c
  {
    forall i | 0 <= i < |h|
      ensures Flowed(pcm, h, i) == 2.0 * pcm.thermalConductivity * c
    {
      FlowedUniform(pcm, h, c, i);
    }
  }
}
