/**
 * The C++ `Lattice1D`: a ring of N >= 3 sites, coupling weights alpha and
 * beta, the state vector and a dense N x N kernel that `derive` fills with a
 * central-difference Jacobian of one update step.
 */
module MicCauseKernel {
  import opened Results
  import opened Vectors
  import opened Ring
  import History

  /**
   * The finite-difference step: the square root of the double-precision
   * machine epsilon 2^-52, that is 2^-26.
   */
  const Eps: real := 1.0 / 67108864.0

  /** `g` with site `j` moved by `d`, every other site as it was. */
  function Bump(g: seq<real>, j: nat, d: real): (r: seq<real>)
    requires j < |g|
    ensures |r| == |g| && r[j] == g[j] + d
    ensures forall k :: 0 <= k < |g| && k != j ==> r[k] == g[k]
  {
    g[j := g[j] + d]
  }

  /**
   * Kernel entry (i, j): the central difference of site i of the next state
   * when site j of `g` is moved by +Eps and by -Eps.
   */
  function FdEntry(alpha: real, beta: real, squash: real -> real, g: seq<real>, i: nat, j: nat): real
    requires i < |g| && j < |g|
  {
    (Step(alpha, beta, squash, Bump(g, j, Eps))[i] - Step(alpha, beta, squash, Bump(g, j, -Eps))[i]) / (2.0 * Eps)
  }

  /**
   * Sparsity: site i of the next state does not read site j unless i is j or
   * one of j's ring neighbours, so the entry is exactly zero, whatever `squash` is.
   */
  lemma FdSparse(alpha: real, beta: real, squash: real -> real, g: seq<real>, i: nat, j: nat)
    requires i < |g| && j < |g| && !Adjacent(i, j, |g|)
    ensures FdEntry(alpha, beta, squash, g, i, j) == 0.0
  {
    var n := |g|;
    NeighbourSymmetry(i, j, n);
    var plus, minus := Bump(g, j, Eps), Bump(g, j, -Eps);
    StepLocal(alpha, beta, squash, plus, minus, i);
  }

  /** With beta = 0 no site reads another one: the kernel is diagonal. */
  lemma FdDecoupled(alpha: real, squash: real -> real, g: seq<real>, i: nat, j: nat)
    requires i < |g| && j < |g| && i != j
    ensures FdEntry(alpha, 0.0, squash, g, i, j) == 0.0
  {
    var plus, minus := Bump(g, j, Eps), Bump(g, j, -Eps);
    assert Drives(alpha, 0.0, plus)[i] == Drive(alpha, 0.0, plus, i) == alpha * g[i];
    assert Drives(alpha, 0.0, minus)[i] == Drive(alpha, 0.0, minus, i) == alpha * g[i];
  }

  /**
   * With the identity in place of tanh the central difference is exact: the
   * entry is the coupling weight with which site j enters site i.
   */
  lemma FdLinear(alpha: real, beta: real, g: seq<real>, i: nat, j: nat)
    requires 3 <= |g| && i < |g| && j < |g|
    ensures FdEntry(alpha, beta, x => x, g, i, j)
         == (if i == j then alpha else 0.0)
          + (if Left(i, |g|) == j then beta else 0.0)
          + (if Right(i, |g|) == j then beta else 0.0)
  {
    var n := |g|;
    var l, r := Left(i, n), Right(i, n);
    var plus, minus := Bump(g, j, Eps), Bump(g, j, -Eps);
    StepIdentity(alpha, beta, plus, i);
    StepIdentity(alpha, beta, minus, i);
    LinearDifference(alpha, beta, plus[i], minus[i], plus[l], minus[l], plus[r], minus[r]);
    BumpDifference(g, j, i);
    BumpDifference(g, j, l);
    BumpDifference(g, j, r);
    ScaledDifference(alpha, beta, i == j, l == j, r == j);
  }

  lemma LinearDifference(alpha: real, beta: real, p: real, m: real, pl: real, ml: real, pr: real, mr: real)
    ensures (alpha * p + beta * (pl + pr)) - (alpha * m + beta * (ml + mr))
         == alpha * (p - m) + beta * (pl - ml) + beta * (pr - mr)
  {
  }

  /** With the identity as squash, site i of the next state is its drive. */
  lemma StepIdentity(alpha: real, beta: real, g: seq<real>, i: nat)
    requires i < |g|
    ensures Step(alpha, beta, x => x, g)[i] == Drive(alpha, beta, g, i)
  {
  }

  /** The two bumped states differ by 2 Eps at the bumped site and nowhere else. */
  lemma BumpDifference(g: seq<real>, j: nat, k: nat)
    requires j < |g| && k < |g|
    ensures Bump(g, j, Eps)[k] - Bump(g, j, -Eps)[k] == if k == j then 2.0 * Eps else 0.0
  {
  }

  /** Differences of 2 Eps or 0 at the three sites, weighted and divided by 2 Eps, leave the weights. */
  lemma ScaledDifference(alpha: real, beta: real, a: bool, b: bool, c: bool)
    ensures (alpha * (if a then 2.0 * Eps else 0.0) + beta * (if b then 2.0 * Eps else 0.0) + beta * (if c then 2.0 * Eps else 0.0)) / (2.0 * Eps)
         == (if a then alpha else 0.0) + (if b then beta else 0.0) + (if c then beta else 0.0)
  {
  }

  class Lattice1D {
    const size: nat
    const alpha: real
    const beta: real
    /** tanh */
    const squash: real -> real
    /** The lattice state g, replaced wholesale by `Reset` and `Forward`. */
    var state: seq<real>
    /** The N x N kernel, filled in place by `Derive`. */
    const kernel: array2<real>

    /** At least three sites; state and kernel keep the lattice's dimensions. */
    ghost predicate Valid()
      reads this
    {
      size >= 3 && |state| == size && kernel.Length0 == size && kernel.Length1 == size
    }

    /** One update of the whole ring with this lattice's weights. */
    function Rule(): (seq<real> -> seq<real>)
    {
      s => Step(alpha, beta, squash, s)
    }

    /** State N zeros, kernel N x N zeros. */
    constructor (size: nat, alpha: real, beta: real, squash: real -> real)
      requires size >= 3
      ensures Valid() && fresh(kernel)
      ensures this.size == size && this.alpha == alpha && this.beta == beta && this.squash == squash
      ensures state == Zeros(size)
      ensures forall i, j :: 0 <= i < size && 0 <= j < size ==> kernel[i, j] == 0.0
    {
      this.size := size;
      this.alpha := alpha;
      this.beta := beta;
      this.squash := squash;
      state := Zeros(size);
      kernel := new real[size, size]((_, _) => 0.0);
    }

    /** The throwing constructor: fewer than three sites is an invalid argument. */
    static method Create(size: nat, alpha: real, beta: real, squash: real -> real) returns (r: Result<Lattice1D>)
      ensures r.Err? <==> size < 3
      ensures r.Err? ==> r.error == InvalidArgument
      ensures r.Ok? ==> fresh(r.value) && fresh(r.value.kernel) && r.value.Valid()
      ensures r.Ok? ==> r.value.size == size && r.value.alpha == alpha && r.value.beta == beta && r.value.squash == squash
      ensures r.Ok? ==> r.value.state == Zeros(size)
      ensures r.Ok? ==> forall i, j :: 0 <= i < size && 0 <= j < size ==> r.value.kernel[i, j] == 0.0
    {
      if size < 3 {
        return Err(InvalidArgument);
      }
      var l := new Lattice1D(size, alpha, beta, squash);
      return Ok(l);
    }

    /** Replace the state by `v`; a vector of the wrong length is an invalid argument. */
    method Reset(v: seq<real>) returns (s: Status)
      requires Valid()
      modifies this
      ensures Valid()
      ensures |v| != size ==> s == Failed(InvalidArgument) && state == old(state)
      ensures |v| == size ==> s == Done && state == v
      ensures forall i, j :: 0 <= i < size && 0 <= j < size ==> kernel[i, j] == old(kernel[i, j])
    {
      if |v| != size {
        return Failed(InvalidArgument);
      }
      state := v;
      return Done;
    }

    /** The update rule applied to `input`, computed site by site from the pre-step values only. */
    method ApplyRule(input: seq<real>) returns (next: seq<real>)
      requires Valid() && |input| == size
      ensures next == Step(alpha, beta, squash, input)
    {
      var buf := new real[size];
      for i := 0 to size
        invariant forall k :: 0 <= k < i ==> buf[k] == Step(alpha, beta, squash, input)[k]
      {
        var left := if i == 0 then size - 1 else i - 1;
        var right := (i + 1) % size;
        var linear := alpha * input[i] + beta * (input[left] + input[right]);
        buf[i] := squash(linear);
        assert Drives(alpha, beta, input)[i] == Drive(alpha, beta, input, i) == linear;
      }
      next := buf[..];
    }

    /** One simultaneous update of every site. */
    method Forward()
      requires Valid()
      modifies this
      ensures Valid()
      ensures state == Step(alpha, beta, squash, old(state))
      ensures forall i, j :: 0 <= i < size && 0 <= j < size ==> kernel[i, j] == old(kernel[i, j])
    {
      state := ApplyRule(state);
    }

    /** `steps` successive updates; zero steps leave the state as it was. */
    method ForwardSteps(steps: nat)
      requires Valid()
      modifies this
      ensures Valid()
      ensures state == History.Iterate(Rule(), old(state), steps)
      ensures forall i, j :: 0 <= i < size && 0 <= j < size ==> kernel[i, j] == old(kernel[i, j])
    {
      for i := 0 to steps
        invariant Valid()
        invariant state == History.Iterate(Rule(), old(state), i)
      {
        Forward();
      }
    }

    /**
     * Fill the kernel with the central-difference Jacobian of one update at
     * the current state. The state is left as it was; every entry off the
     * ring-neighbour band is zero, and with beta = 0 only the diagonal is.
     */
    method Derive()
      requires Valid()
      modifies kernel
      ensures Valid() && state == old(state)
      ensures forall i, j :: 0 <= i < size && 0 <= j < size ==> kernel[i, j] == FdEntry(alpha, beta, squash, state, i, j)
      ensures forall i, j :: 0 <= i < size && 0 <= j < size && !Adjacent(i, j, size) ==> kernel[i, j] == 0.0
      ensures beta == 0.0 ==> forall i, j :: 0 <= i < size && 0 <= j < size && i != j ==> kernel[i, j] == 0.0
    {
      var base := state;
      for j := 0 to size
        invariant forall r, c :: 0 <= r < size && 0 <= c < j ==> kernel[r, c] == FdEntry(alpha, beta, squash, base, r, c)
      {
        var plus := base[j := base[j] + Eps];
        var minus := base[j := base[j] - Eps];
        var nextPlus := ApplyRule(plus);
        var nextMinus := ApplyRule(minus);
        assert plus == Bump(base, j, Eps) && minus == Bump(base, j, -Eps);
        for i := 0 to size
          invariant forall r, c :: 0 <= r < size && 0 <= c < j ==> kernel[r, c] == FdEntry(alpha, beta, squash, base, r, c)
          invariant forall r :: 0 <= r < i ==> kernel[r, j] == FdEntry(alpha, beta, squash, base, r, j)
        {
          kernel[i, j] := (nextPlus[i] - nextMinus[i]) / (2.0 * Eps);
        }
      }
      forall i, j | 0 <= i < size && 0 <= j < size && !Adjacent(i, j, size)
        ensures FdEntry(alpha, beta, squash, state, i, j) == 0.0
      {
        FdSparse(alpha, beta, squash, state, i, j);
      }
      if beta == 0.0 {
        forall i, j | 0 <= i < size && 0 <= j < size && i != j
          ensures FdEntry(alpha, beta, squash, state, i, j) == 0.0
        {
          FdDecoupled(alpha, squash, state, i, j);
        }
      }
    }

    /** A copy of kernel column `index`; an index past the last site is out of range. */
    method Column(index: nat) returns (r: Result<seq<real>>)
      requires Valid()
      ensures r.Err? <==> index >= size
      ensures r.Err? ==> r.error == OutOfRange
      ensures r.Ok? ==> |r.value| == size && forall row :: 0 <= row < size ==> r.value[row] == kernel[row, index]
    {
      if index >= size {
        return Err(OutOfRange);
      }
      var col := new real[size];
      for row := 0 to size
        invariant forall k :: 0 <= k < row ==> col[k] == kernel[k, index]
      {
        col[row] := kernel[row, index];
      }
      return Ok(col[..]);
    }
  }
}
