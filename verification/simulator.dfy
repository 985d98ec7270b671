/**
 * The Python `McikLatticeSimulator`: a 1-D or 2-D lattice (stored flat, row
 * major), micro-cause pokes added at t = 0, a history cube filled by repeated
 * application of an update rule, its temporal integral, and first- and
 * second-order kernels estimated from several such runs.
 */
module LatticeSim {
  import opened Results
  import opened Vectors
  import opened History
  import opened Sensitivity
  import Ring

  /** numpy's size: the product of the dimensions. */
  function Product(dims: seq<nat>): nat
  {
    if dims == [] then 1 else dims[0] * Product(dims[1..])
  }

  lemma ProductRank(dims: seq<nat>)
    requires 1 <= |dims| <= 2
    ensures Product(dims) == if |dims| == 1 then dims[0] else dims[0] * dims[1]
  {
    if |dims| == 2 {
      assert dims[1..][1..] == [];
      assert Product(dims[1..]) == dims[1] * Product([]);
    } else {
      assert dims[1..] == [];
    }
  }

  /** The k-th coordinate of flat index f (row-major). */
  function Coord(dims: seq<nat>, f: nat, k: nat): (c: nat)
    requires 1 <= |dims| <= 2 && f < Product(dims) && k < |dims|
    ensures c < dims[k]
  {
    CoordBounds(dims, f);
    if |dims| == 1 then f
    else if k == 0 then f / dims[1] else f % dims[1]
  }

  /** A flat index within the size is within the axis of a 1-D lattice, or has a row and column within the 2-D one. */
  lemma CoordBounds(dims: seq<nat>, f: nat)
    requires 1 <= |dims| <= 2 && f < Product(dims)
    ensures |dims| == 1 ==> f < dims[0]
    ensures |dims| == 2 ==> dims[1] > 0 && f / dims[1] < dims[0] && f % dims[1] < dims[1]
  {
    ProductRank(dims);
    if |dims| == 2 {
      Ring.RowCol(f, dims[0], dims[1]);
    }
  }

  /** A poke at a position (a one-element position for a bare index key). */
  datatype Poke = Poke(pos: seq<int>, value: real)

  /** numpy's index check: -n <= i < n. */
  predicate InBounds(i: int, n: nat)
  {
    -(n as int) <= i < n
  }

  /** numpy's wrap of a negative index. */
  function Wrap(i: int, n: nat): (w: int)
    requires InBounds(i, n)
    ensures 0 <= w < n && (w == i || w == i + n)
  {
    if i < 0 then i + n else i
  }

  /** No more indices than axes, each index within its axis. */
  predicate Fits(dims: seq<nat>, pos: seq<int>)
  {
    |pos| <= |dims| && forall k :: 0 <= k < |pos| ==> InBounds(pos[k], dims[k])
  }

  /**
   * Cell f lies in the block `pos` selects: a full position selects one cell,
   * a shorter one selects every cell whose leading coordinates match.
   */
  predicate Hits(dims: seq<nat>, pos: seq<int>, f: nat)
    requires 1 <= |dims| <= 2 && f < Product(dims) && Fits(dims, pos)
  {
    forall k :: 0 <= k < |pos| ==> Coord(dims, f, k) == Wrap(pos[k], dims[k])
  }

  function Poked(s: seq<real>, dims: seq<nat>, p: Poke, f: nat): real
    requires 1 <= |dims| <= 2 && |s| == Product(dims) && f < |s| && Fits(dims, p.pos)
  {
    s[f] + (if Hits(dims, p.pos, f) then p.value else 0.0)
  }

  /** numpy's `state[pos] += value`: an index out of bounds, or too many indices, is an IndexError. */
  function AddPoke(s: seq<real>, dims: seq<nat>, p: Poke): (r: Result<seq<real>>)
    requires 1 <= |dims| <= 2 && |s| == Product(dims)
    ensures r.Err? <==> !Fits(dims, p.pos)
    ensures r.Err? ==> r.error == IndexError
    ensures r.Ok? ==> |r.value| == |s|
    ensures r.Ok? ==> forall f :: 0 <= f < |s| ==> r.value[f] == Poked(s, dims, p, f)
  {
    if !Fits(dims, p.pos) then Err(IndexError)
    else Ok(seq(|s|, f requires 0 <= f < |s| => Poked(s, dims, p, f)))
  }

  /** A poke the loop accepts; with the rank check on, its position must name every axis. */
  predicate Accepted(dims: seq<nat>, p: Poke, checkRank: bool)
  {
    (checkRank ==> |p.pos| == |dims|) && Fits(dims, p.pos)
  }

  /** One pass of the poke loop: the rank check (a ValueError) comes before indexing. */
  function PokeOne(s: seq<real>, dims: seq<nat>, p: Poke, checkRank: bool): (r: Result<seq<real>>)
    requires 1 <= |dims| <= 2 && |s| == Product(dims)
    ensures r.Ok? <==> Accepted(dims, p, checkRank)
    ensures r.Ok? ==> |r.value| == |s|
  {
    if checkRank && |p.pos| != |dims| then Err(ValueError) else AddPoke(s, dims, p)
  }

  /** The pokes applied in order to a copy of `s`, stopping at the first one rejected. */
  function ApplyPokes(s: seq<real>, dims: seq<nat>, pokes: seq<Poke>, checkRank: bool): (r: Result<seq<real>>)
    requires 1 <= |dims| <= 2 && |s| == Product(dims)
    ensures r.Ok? ==> |r.value| == |s|
    decreases |pokes|
  {
    if pokes == [] then Ok(s)
    else
      match ApplyPokes(s, dims, pokes[..|pokes| - 1], checkRank)
      case Err(e) => Err(e)
      case Ok(t) => PokeOne(t, dims, pokes[|pokes| - 1], checkRank)
  }

  /** The pokes go through exactly when every one of them is accepted. */
  lemma {:induction false} ApplyPokesOk(s: seq<real>, dims: seq<nat>, pokes: seq<Poke>, checkRank: bool)
    requires 1 <= |dims| <= 2 && |s| == Product(dims)
    ensures ApplyPokes(s, dims, pokes, checkRank).Ok? <==> forall k :: 0 <= k < |pokes| ==> Accepted(dims, pokes[k], checkRank)
    ensures !checkRank && ApplyPokes(s, dims, pokes, checkRank).Err? ==> ApplyPokes(s, dims, pokes, checkRank).error == IndexError
  {
    if pokes != [] {
      var front := pokes[..|pokes| - 1];
      ApplyPokesOk(s, dims, front, checkRank);
      assert forall k :: 0 <= k < |front| ==> front[k] == pokes[k];
    }
  }

  /** What the pokes add to cell f: the sum of the values of every poke whose block holds f. */
  function PokeTotal(dims: seq<nat>, pokes: seq<Poke>, f: nat): real
    requires 1 <= |dims| <= 2 && f < Product(dims)
    requires forall k :: 0 <= k < |pokes| ==> Fits(dims, pokes[k].pos)
    decreases |pokes|
  {
    if pokes == [] then 0.0
    else
      var last := pokes[|pokes| - 1];
      PokeTotal(dims, pokes[..|pokes| - 1], f) + (if Hits(dims, last.pos, f) then last.value else 0.0)
  }

  /** Once a prefix of the pokes is rejected, the whole loop fails with that error. */
  lemma {:induction false} ApplyPokesPrefixErr(s: seq<real>, dims: seq<nat>, pokes: seq<Poke>, checkRank: bool, i: nat)
    requires 1 <= |dims| <= 2 && |s| == Product(dims) && i <= |pokes|
    requires ApplyPokes(s, dims, pokes[..i], checkRank).Err?
    ensures ApplyPokes(s, dims, pokes, checkRank) == ApplyPokes(s, dims, pokes[..i], checkRank)
    decreases |pokes| - i
  {
    if i < |pokes| {
      var front := pokes[..|pokes| - 1];
      assert front[..i] == pokes[..i];
      ApplyPokesPrefixErr(s, dims, front, checkRank, i);
    } else {
      assert pokes[..i] == pokes;
    }
  }

  /** Pokes are added, not written: each cell ends as its base value plus every poke that reaches it. */
  lemma {:induction false} ApplyPokesTotal(s: seq<real>, dims: seq<nat>, pokes: seq<Poke>, checkRank: bool)
    requires 1 <= |dims| <= 2 && |s| == Product(dims)
    requires ApplyPokes(s, dims, pokes, checkRank).Ok?
    ensures forall k :: 0 <= k < |pokes| ==> Fits(dims, pokes[k].pos)
    ensures forall f :: 0 <= f < |s| ==> ApplyPokes(s, dims, pokes, checkRank).value[f] == s[f] + PokeTotal(dims, pokes, f)
  {
    ApplyPokesOk(s, dims, pokes, checkRank);
    if pokes != [] {
      var front := pokes[..|pokes| - 1];
      assert forall k :: 0 <= k < |front| ==> front[k] == pokes[k];
      ApplyPokesTotal(s, dims, front, checkRank);
    }
  }

  /** Two pokes without the rank check: the first, then the second on its result. */
  lemma ApplyPair(s: seq<real>, dims: seq<nat>, p: Poke, q: Poke)
    requires 1 <= |dims| <= 2 && |s| == Product(dims)
    ensures ApplyPokes(s, dims, [p, q], false)
         == if AddPoke(s, dims, p).Err? then AddPoke(s, dims, p) else AddPoke(AddPoke(s, dims, p).value, dims, q)
  {
    assert [p, q][..1] == [p];
    assert [p][..0] == [];
    assert ApplyPokes(s, dims, [p], false) == AddPoke(s, dims, p);
  }

  /** Without the rank check, two pokes give the same state in either order, errors included. */
  lemma PokeOrder(s: seq<real>, dims: seq<nat>, p: Poke, q: Poke)
    requires 1 <= |dims| <= 2 && |s| == Product(dims)
    ensures ApplyPokes(s, dims, [p, q], false) == ApplyPokes(s, dims, [q, p], false)
  {
    ApplyPair(s, dims, p, q);
    ApplyPair(s, dims, q, p);
    if Fits(dims, p.pos) && Fits(dims, q.pos) {
      var tp, tq := AddPoke(s, dims, p).value, AddPoke(s, dims, q).value;
      var pq, qp := AddPoke(tp, dims, q).value, AddPoke(tq, dims, p).value;
      forall f | 0 <= f < |s|
        ensures pq[f] == qp[f]
      {
        assert pq[f] == Poked(tp, dims, q, f) && tp[f] == Poked(s, dims, p, f);
        assert qp[f] == Poked(tq, dims, p, f) && tq[f] == Poked(s, dims, q, f);
      }
      assert pq == qp;
    } else {
      assert ApplyPokes(s, dims, [p, q], false) == Err(IndexError) == ApplyPokes(s, dims, [q, p], false);
    }
  }

  /** The state a kernel run starts from: the base state as set, or zeros if none was. */
  function Base(initial: Option<seq<real>>, n: nat): (b: seq<real>)
    requires initial.Some? ==> |initial.value| == n
    ensures |b| == n
    ensures initial.None? ==> AllZero(b)
  {
    if initial.None? then Zeros(n) else initial.value
  }

  /**
   * The result of one kernel run: the temporal integral of the history from
   * `base` with the pokes added. A non-positive number of steps fails the way
   * numpy does (a negative dimension, then an index into an empty time axis),
   * and so does a lattice without sites (the minimum of an empty array in the
   * run's summary).
   */
  function Response(base: seq<real>, dims: seq<nat>, timeSteps: int, rule: seq<real> -> seq<real>, pokes: seq<Poke>): (r: Result<seq<real>>)
    requires 1 <= |dims| <= 2 && |base| == Product(dims) && PreservesLength(rule, Product(dims))
    ensures r.Ok? <==> timeSteps > 0 && Product(dims) > 0 && forall k :: 0 <= k < |pokes| ==> Fits(dims, pokes[k].pos)
    ensures r.Err? ==> r.error == IndexError || r.error == ValueError
    ensures r.Err? ==>
      (r.error == IndexError <==> timeSteps == 0 || exists k :: 0 <= k < |pokes| && !Fits(dims, pokes[k].pos))
    ensures r.Ok? ==> |r.value| == |base|
  {
    ApplyPokesOk(base, dims, pokes, false);
    match ApplyPokes(base, dims, pokes, false)
    case Err(e) => Err(e)
    case Ok(s) =>
      if timeSteps < 0 then Err(ValueError)
      else if timeSteps == 0 then Err(IndexError)
      else if Product(dims) == 0 then Err(ValueError)
      else
        OrbitShape(rule, s, timeSteps);
        Ok(TimeSum(Orbit(rule, s, timeSteps), Product(dims)))
  }

  /** K_a = Y_a - Y_base, from a baseline run and a run with one poke. */
  function KKernel(base: seq<real>, dims: seq<nat>, timeSteps: int, rule: seq<real> -> seq<real>, pos: seq<int>, v: real): (r: Result<seq<real>>)
    requires 1 <= |dims| <= 2 && |base| == Product(dims) && PreservesLength(rule, Product(dims))
    ensures r.Ok? <==> timeSteps > 0 && Product(dims) > 0 && Fits(dims, pos)
  {
    match Response(base, dims, timeSteps, rule, [])
    case Err(e) => Err(e)
    case Ok(ybase) =>
      match Response(base, dims, timeSteps, rule, [Poke(pos, v)])
      case Err(e) => Err(e)
      case Ok(ya) => Ok(FirstOrder(ya, ybase))
  }

  /** The joint pokes as the dict `{a: v, b: v}` holds them: one key when a == b. */
  function PairPokes(a: seq<int>, b: seq<int>, v: real): (ps: seq<Poke>)
    ensures a == b ==> ps == [Poke(a, v)]
    ensures a != b ==> ps == [Poke(a, v), Poke(b, v)]
  {
    if a == b then [Poke(a, v)] else [Poke(a, v), Poke(b, v)]
  }

  datatype Kernels = Kernels(ka: seq<real>, kb: seq<real>, hab: seq<real>)

  /** (K_a, K_b, H_ab) from the four runs base, a, b and a + b, in that order. */
  function HKernel(base: seq<real>, dims: seq<nat>, timeSteps: int, rule: seq<real> -> seq<real>, a: seq<int>, b: seq<int>, v: real): (r: Result<Kernels>)
    requires 1 <= |dims| <= 2 && |base| == Product(dims) && PreservesLength(rule, Product(dims))
    ensures r.Ok? <==> timeSteps > 0 && Product(dims) > 0 && Fits(dims, a) && Fits(dims, b)
  {
    match Response(base, dims, timeSteps, rule, [])
    case Err(e) => Err(e)
    case Ok(ybase) =>
      match Response(base, dims, timeSteps, rule, [Poke(a, v)])
      case Err(e) => Err(e)
      case Ok(ya) =>
        match Response(base, dims, timeSteps, rule, [Poke(b, v)])
        case Err(e) => Err(e)
        case Ok(yb) =>
          match Response(base, dims, timeSteps, rule, PairPokes(a, b, v))
          case Err(e) => Err(e)
          case Ok(yab) =>
            Ok(Kernels(FirstOrder(ya, ybase), FirstOrder(yb, ybase), Synergy(yab, ya, yb, ybase)))
  }

  /** Swapping the two micro-causes swaps the first-order kernels and leaves H unchanged. */
  lemma HKernelSwap(base: seq<real>, dims: seq<nat>, timeSteps: int, rule: seq<real> -> seq<real>, a: seq<int>, b: seq<int>, v: real)
    requires 1 <= |dims| <= 2 && |base| == Product(dims) && PreservesLength(rule, Product(dims))
    requires HKernel(base, dims, timeSteps, rule, a, b, v).Ok?
    ensures HKernel(base, dims, timeSteps, rule, b, a, v).Ok?
    ensures HKernel(base, dims, timeSteps, rule, b, a, v).value.ka == HKernel(base, dims, timeSteps, rule, a, b, v).value.kb
    ensures HKernel(base, dims, timeSteps, rule, b, a, v).value.kb == HKernel(base, dims, timeSteps, rule, a, b, v).value.ka
    ensures HKernel(base, dims, timeSteps, rule, b, a, v).value.hab == HKernel(base, dims, timeSteps, rule, a, b, v).value.hab
  {
    if a != b {
      PokeOrder(base, dims, Poke(a, v), Poke(b, v));
    }
    var ybase := Response(base, dims, timeSteps, rule, []).value;
    var ya := Response(base, dims, timeSteps, rule, [Poke(a, v)]).value;
    var yb := Response(base, dims, timeSteps, rule, [Poke(b, v)]).value;
    var yab := Response(base, dims, timeSteps, rule, PairPokes(a, b, v)).value;
    assert Response(base, dims, timeSteps, rule, PairPokes(b, a, v)).value == yab;
    SynergySymmetric(yab, ya, yb, ybase);
  }

  /** Both micro-causes at one position: one key, so Y_ab = Y_a and H_ab = -K_a. */
  lemma HKernelSamePosition(base: seq<real>, dims: seq<nat>, timeSteps: int, rule: seq<real> -> seq<real>, a: seq<int>, v: real)
    requires 1 <= |dims| <= 2 && |base| == Product(dims) && PreservesLength(rule, Product(dims))
    requires HKernel(base, dims, timeSteps, rule, a, a, v).Ok?
    ensures var k := HKernel(base, dims, timeSteps, rule, a, a, v).value;
      k.ka == k.kb && forall i :: 0 <= i < |base| ==> k.hab[i] == -k.ka[i]
  {
    var ybase := Response(base, dims, timeSteps, rule, []).value;
    var ya := Response(base, dims, timeSteps, rule, [Poke(a, v)]).value;
    SynergyOfOnePoke(ya, ybase);
  }

  /** A poke of size zero changes nothing, so its first-order kernel is zero. */
  lemma KKernelOfZeroPoke(base: seq<real>, dims: seq<nat>, timeSteps: int, rule: seq<real> -> seq<real>, pos: seq<int>)
    requires 1 <= |dims| <= 2 && |base| == Product(dims) && PreservesLength(rule, Product(dims))
    requires KKernel(base, dims, timeSteps, rule, pos, 0.0).Ok?
    ensures AllZero(KKernel(base, dims, timeSteps, rule, pos, 0.0).value)
  {
    var p := Poke(pos, 0.0);
    assert [p][..0] == [];
    assert ApplyPokes(base, dims, [p], false).value == base;
  }

  /**
   * The poke loop of `set_initial_state` on a copy of the base state: each
   * position is checked for rank, then added; the first rejected poke ends
   * the loop with its error.
   */
  method PokeLoop(base: seq<real>, dims: seq<nat>, newPokes: seq<Poke>) returns (r: Result<seq<real>>)
    requires 1 <= |dims| <= 2 && |base| == Product(dims)
    ensures r == ApplyPokes(base, dims, newPokes, true)
  {
    var temp := base;
    for i := 0 to |newPokes|
      invariant |temp| == Product(dims)
      invariant ApplyPokes(base, dims, newPokes[..i], true) == Ok(temp)
    {
      var p := newPokes[i];
      assert newPokes[..i + 1][..i] == newPokes[..i];
      if |p.pos| != |dims| {
        ApplyPokesPrefixErr(base, dims, newPokes, true, i + 1);
        return Err(ValueError);
      }
      var added := AddPoke(temp, dims, p);
      if added.Err? {
        ApplyPokesPrefixErr(base, dims, newPokes, true, i + 1);
        return Err(IndexError);
      }
      temp := added.value;
    }
    assert newPokes[..|newPokes|] == newPokes;
    return Ok(temp);
  }

  /** An ndarray handed in as the initial state: its shape and its cells in row-major order. */
  datatype Grid = Grid(shape: seq<nat>, data: seq<real>)

  class Simulator {
    const dims: seq<nat>
    const timeSteps: int
    /** The update rule with its keyword parameters bound. */
    const rule: seq<real> -> seq<real>
    /** `initial_state`: the base state before pokes. */
    var initialState: Option<seq<real>>
    /** `initial_state_with_pokes`: the t = 0 state of the next run. */
    var poked: Option<seq<real>>
    /** `data_cube`, slice t being the state at time t. */
    var cube: Option<seq<seq<real>>>
    /** The pokes last passed to `SetInitialState`. */
    var pokes: seq<Poke>

    ghost predicate Valid()
      reads this
    {
      && 1 <= |dims| <= 2
      && PreservesLength(rule, Product(dims))
      && (initialState.Some? ==> |initialState.value| == Product(dims))
      && (poked.Some? ==> |poked.value| == Product(dims))
      && (cube.Some? ==> Rectangular(cube.value, Product(dims)))
    }

    constructor (dims: seq<nat>, timeSteps: int, rule: seq<real> -> seq<real>)
      requires 1 <= |dims| <= 2 && PreservesLength(rule, Product(dims))
      ensures Valid()
      ensures this.dims == dims && this.timeSteps == timeSteps && this.rule == rule
      ensures initialState == None && poked == None && cube == None && pokes == []
    {
      this.dims := dims;
      this.timeSteps := timeSteps;
      this.rule := rule;
      initialState := None;
      poked := None;
      cube := None;
      pokes := [];
    }

    /** The checking constructor: a rank other than 1 or 2 is a ValueError. */
    static method Create(dims: seq<nat>, timeSteps: int, rule: seq<real> -> seq<real>) returns (r: Result<Simulator>)
      requires PreservesLength(rule, Product(dims))
      ensures r.Err? <==> !(1 <= |dims| <= 2)
      ensures r.Err? ==> r.error == ValueError
      ensures r.Ok? ==> fresh(r.value) && r.value.Valid()
      ensures r.Ok? ==> r.value.dims == dims && r.value.timeSteps == timeSteps && r.value.rule == rule
      ensures r.Ok? ==> r.value.initialState == None && r.value.poked == None && r.value.cube == None && r.value.pokes == []
    {
      if !(1 <= |dims| <= 2) {
        return Err(ValueError);
      }
      var sim := new Simulator(dims, timeSteps, rule);
      return Ok(sim);
    }

    /**
     * Set the base state (zeros when none is given) and add the pokes to a
     * copy of it. A shape mismatch fails before anything changes; a rejected
     * poke fails after the base state and the pokes have been stored. On a
     * lattice without sites the summary of the poked state takes the minimum
     * of an empty array: a ValueError after the poked state is stored and
     * before the cube is cleared.
     */
    method SetInitialState(initial: Option<Grid>, newPokes: seq<Poke>) returns (st: Status)
      requires Valid()
      requires initial.Some? ==> |initial.value.data| == Product(initial.value.shape)
      modifies this
      ensures Valid()
      ensures initial.Some? && initial.value.shape != dims ==>
        st == Failed(ValueError) && initialState == old(initialState) && pokes == old(pokes) && poked == old(poked) && cube == old(cube)
      ensures initial.None? || initial.value.shape == dims ==>
        var base := if initial.None? then Zeros(Product(dims)) else initial.value.data;
        && initialState == Some(base)
        && pokes == newPokes
        && match ApplyPokes(base, dims, newPokes, true)
           case Ok(t) =>
             && poked == Some(t)
             && (Product(dims) == 0 ==> st == Failed(ValueError) && cube == old(cube))
             && (Product(dims) > 0 ==> st == Done && cube == None)
           case Err(e) => st == Failed(e) && poked == old(poked) && cube == old(cube)
    {
      var base: seq<real>;
      if initial.None? {
        base := Zeros(Product(dims));
      } else {
        if initial.value.shape != dims {
          return Failed(ValueError);
        }
        base := initial.value.data;
      }
      initialState := Some(base);
      pokes := newPokes;
      var r := PokeLoop(base, dims, newPokes);
      if r.Err? {
        return Failed(r.error);
      }
      poked := Some(r.value);
      if Product(dims) == 0 {
        return Failed(ValueError);
      }
      cube := None;
      return Done;
    }

    /**
     * Fill the history cube: slice 0 is the poked state and slice t + 1 is
     * the rule applied to slice t. Without a poked state it is a RuntimeError.
     * On a lattice without sites the filled cube's summary takes the minimum of
     * an empty array: a ValueError with the cube already stored.
     */
    method RunSimulation() returns (r: Result<seq<seq<real>>>)
      requires Valid()
      modifies this
      ensures Valid()
      ensures initialState == old(initialState) && poked == old(poked) && pokes == old(pokes)
      ensures old(poked).None? ==> r == Err(RuntimeError) && cube == old(cube)
      ensures old(poked).Some? && timeSteps < 0 ==> r == Err(ValueError) && cube == old(cube)
      ensures old(poked).Some? && timeSteps == 0 ==> r == Err(IndexError) && cube == Some([])
      ensures old(poked).Some? && timeSteps > 0 ==> cube == Some(Orbit(rule, old(poked).value, timeSteps))
      ensures old(poked).Some? && timeSteps > 0 ==> r == if Product(dims) == 0 then Err(ValueError) else Ok(cube.value)
    {
      if poked.None? {
        return Err(RuntimeError);
      }
      if timeSteps < 0 {
        return Err(ValueError);
      }
      if timeSteps == 0 {
        cube := Some([]);
        return Err(IndexError);
      }
      var g0 := poked.value;
      var slices := [g0];
      var current := g0;
      for t := 0 to timeSteps - 1
        invariant initialState == old(initialState) && poked == old(poked) && pokes == old(pokes) && cube == old(cube)
        invariant slices == Orbit(rule, g0, t + 1) && current == slices[t]
      {
        OrbitSnoc(rule, g0, t + 1);
        var next := rule(current);
        slices := slices + [next];
        current := next;
      }
      OrbitShape(rule, g0, timeSteps);
      cube := Some(slices);
      if Product(dims) == 0 {
        return Err(ValueError);
      }
      return Ok(slices);
    }

    /**
     * The cube summed over its time axis; without a cube it is a RuntimeError,
     * and on a lattice without sites the summary's minimum of the empty
     * integral is a ValueError.
     */
    function TemporalIntegral(): (r: Result<seq<real>>)
      requires Valid()
      reads this
      ensures r.Err? <==> cube.None? || Product(dims) == 0
      ensures r.Err? ==> r.error == if cube.None? then RuntimeError else ValueError
      ensures r.Ok? ==> |r.value| == Product(dims)
      ensures r.Ok? ==> forall i :: 0 <= i < Product(dims) ==> r.value[i] == Sum(SiteSeries(cube.value, i))
    {
      if cube.None? then Err(RuntimeError)
      else if Product(dims) == 0 then Err(ValueError)
      else Ok(TimeSum(cube.value, Product(dims)))
    }

    /**
     * One kernel run: always from the unpoked base state (zeros if none was
     * set) with only `runPokes` added, no rank check. A rejected poke changes
     * nothing; a failed simulation leaves the poked state, and the cube as far
     * as it was allocated; a successful run clears both.
     */
    method RunForKernel(runPokes: seq<Poke>) returns (r: Result<seq<real>>)
      requires Valid()
      modifies this
      ensures Valid()
      ensures r == Response(Base(initialState, Product(dims)), dims, timeSteps, rule, runPokes)
      ensures initialState == old(initialState) && pokes == old(pokes)
      ensures var s := ApplyPokes(Base(initialState, Product(dims)), dims, runPokes, false);
        s.Err? ==> poked == old(poked) && cube == old(cube)
      ensures var s := ApplyPokes(Base(initialState, Product(dims)), dims, runPokes, false);
        s.Ok? && r.Err? ==>
          && poked == Some(s.value)
          && cube == if timeSteps < 0 then old(cube) else Some(Orbit(rule, s.value, timeSteps))
      ensures r.Ok? ==> poked == None && cube == None
    {
      var base := if initialState.None? then Zeros(Product(dims)) else initialState.value;
      var temp := base;
      for i := 0 to |runPokes|
        invariant |temp| == Product(dims)
        invariant ApplyPokes(base, dims, runPokes[..i], false) == Ok(temp)
      {
        assert runPokes[..i + 1][..i] == runPokes[..i];
        var added := AddPoke(temp, dims, runPokes[i]);
        if added.Err? {
          ApplyPokesOk(base, dims, runPokes, false);
          assert !Accepted(dims, runPokes[i], false);
          return Err(IndexError);
        }
        temp := added.value;
      }
      assert runPokes[..|runPokes|] == runPokes;
      poked := Some(temp);
      var history := RunSimulation();
      if history.Err? {
        return Err(history.error);
      }
      var integral := TemporalIntegral();
      poked := None;
      cube := None;
      return integral;
    }

    /**
     * K_a = Y_a - Y_base from a baseline run and a run poked at `pos`. The
     * baseline run fails exactly when the steps are not positive or the
     * lattice has no sites, and then leaves its state; otherwise both runs
     * end with the poked state and the cube cleared.
     */
    method EstimateKKernel(pos: seq<int>, v: real) returns (r: Result<seq<real>>)
      requires Valid()
      modifies this
      ensures Valid()
      ensures r == KKernel(Base(initialState, Product(dims)), dims, timeSteps, rule, pos, v)
      ensures initialState == old(initialState) && pokes == old(pokes)
      ensures timeSteps > 0 && Product(dims) > 0 ==> poked == None && cube == None
      ensures !(timeSteps > 0 && Product(dims) > 0) ==>
        var base := Base(initialState, Product(dims));
        && poked == Some(base)
        && cube == if timeSteps < 0 then old(cube) else Some(Orbit(rule, base, timeSteps))
    {
      var ybase := RunForKernel([]);
      if ybase.Err? {
        return Err(ybase.error);
      }
      var ya := RunForKernel([Poke(pos, v)]);
      if ya.Err? {
        return Err(ya.error);
      }
      return Ok(FirstOrder(ya.value, ybase.value));
    }

    /** (K_a, K_b, H_ab) from the runs base, a, b and a + b; the state afterwards as for `EstimateKKernel`. */
    method EstimateHKernel(a: seq<int>, b: seq<int>, v: real) returns (r: Result<Kernels>)
      requires Valid()
      modifies this
      ensures Valid()
      ensures r == HKernel(Base(initialState, Product(dims)), dims, timeSteps, rule, a, b, v)
      ensures initialState == old(initialState) && pokes == old(pokes)
      ensures timeSteps > 0 && Product(dims) > 0 ==> poked == None && cube == None
      ensures !(timeSteps > 0 && Product(dims) > 0) ==>
        var base := Base(initialState, Product(dims));
        && poked == Some(base)
        && cube == if timeSteps < 0 then old(cube) else Some(Orbit(rule, base, timeSteps))
    {
      var ybase := RunForKernel([]);
      if ybase.Err? {
        return Err(ybase.error);
      }
      var ya := RunForKernel([Poke(a, v)]);
      if ya.Err? {
        return Err(ya.error);
      }
      var yb := RunForKernel([Poke(b, v)]);
      if yb.Err? {
        return Err(yb.error);
      }
      var pokesAb := if a == b then [Poke(a, v)] else [Poke(a, v), Poke(b, v)];
      var yab := RunForKernel(pokesAb);
      if yab.Err? {
        return Err(yab.error);
      }
      return Ok(Kernels(FirstOrder(ya.value, ybase.value), FirstOrder(yb.value, ybase.value), Synergy(yab.value, ya.value, yb.value, ybase.value)));
    }
  }
}
