/**
 * The nearest-neighbour update on a ring of sites,
 *   next[i] = squash(alpha * g[i] + beta * (g[left(i)] + g[right(i)])),
 * written once with the C++ kernel's explicit neighbour indices and once with
 * numpy's `roll`, plus the four-neighbour update on a 2-D torus.
 * `squash` stands for tanh.
 */
module Ring {
  import opened Vectors
  import opened NatArith
  import History

  /** Left neighbour as the C++ kernel computes it: `i == 0 ? n - 1 : i - 1`. */
  function Left(i: nat, n: nat): nat
    requires i < n
  {
    if i == 0 then n - 1 else i - 1
  }

  /** Right neighbour as the C++ kernel computes it: `(i + 1) % n`. */
  function Right(i: nat, n: nat): nat
    requires i < n
  {
    (i + 1) % n
  }

  /** Site `i` is `j` itself or one of `j`'s two ring neighbours. */
  predicate Adjacent(i: nat, j: nat, n: nat)
    requires i < n && j < n
  {
    i == j || i == Left(j, n) || i == Right(j, n)
  }

  /** One simultaneous update of every site, reading only the pre-step state. */
  function Step(alpha: real, beta: real, squash: real -> real, g: seq<real>): (next: seq<real>)
    ensures |next| == |g|
  {
    Map(squash, Drives(alpha, beta, g))
  }

  /** `Step` with its weights and squash bound, as a rule on whole states. */
  function StepRule(alpha: real, beta: real, squash: real -> real): seq<real> -> seq<real>
  {
    g => Step(alpha, beta, squash, g)
  }

  lemma StepRuleKeepsLength(alpha: real, beta: real, squash: real -> real, n: nat)
    ensures History.PreservesLength(StepRule(alpha, beta, squash), n)
  {
    forall s: seq<real> | |s| == n
      ensures |StepRule(alpha, beta, squash)(s)| == n
    {
      assert StepRule(alpha, beta, squash)(s) == Step(alpha, beta, squash, s);
    }
  }

  /** The argument handed to `squash` at every site. */
  function Drives(alpha: real, beta: real, g: seq<real>): (d: seq<real>)
    ensures |d| == |g|
  {
    seq(|g|, i requires 0 <= i < |g| => Drive(alpha, beta, g, i))
  }

  /** The argument handed to `squash` at site `i`: self weight plus the two neighbours' weight. */
  function Drive(alpha: real, beta: real, g: seq<real>, i: nat): real
    requires i < |g|
  {
    alpha * g[i] + beta * (g[Left(i, |g|)] + g[Right(i, |g|)])
  }

  /** Apply `f` to every element. */
  function Map(f: real -> real, a: seq<real>): (r: seq<real>)
    ensures |r| == |a| && forall i {:trigger r[i]} :: 0 <= i < |a| ==> r[i] == f(a[i])
  {
    seq(|a|, i requires 0 <= i < |a| => f(a[i]))
  }

  /** The right neighbour is the next site, or site 0 past the end. */
  lemma RightWraps(i: nat, n: nat)
    requires i < n
    ensures Right(i, n) == if i + 1 < n then i + 1 else 0
  {
  }

  /** The neighbour relation is symmetric: `j` feeds site `i` exactly when `i` is adjacent to `j`. */
  lemma NeighbourSymmetry(i: nat, j: nat, n: nat)
    requires i < n && j < n
    ensures (j == i || j == Left(i, n) || j == Right(i, n)) <==> Adjacent(i, j, n)
  {
    RightWraps(i, n);
    RightWraps(j, n);
  }

  /**
   * Locality: site `i` of the next state depends only on sites `i`, `Left(i)`
   * and `Right(i)` of the current one.
   */
  lemma StepLocal(alpha: real, beta: real, squash: real -> real, g: seq<real>, h: seq<real>, i: nat)
    requires |g| == |h| && i < |g|
    requires g[i] == h[i]
    requires g[Left(i, |g|)] == h[Left(i, |g|)] && g[Right(i, |g|)] == h[Right(i, |g|)]
    ensures Step(alpha, beta, squash, g)[i] == Step(alpha, beta, squash, h)[i]
  {
    assert Drives(alpha, beta, g)[i] == Drive(alpha, beta, g, i) == Drive(alpha, beta, h, i) == Drives(alpha, beta, h)[i];
  }

  /** A uniform state stays uniform: every site becomes squash((alpha + 2 beta) c). */
  lemma StepUniform(alpha: real, beta: real, squash: real -> real, g: seq<real>, c: real)
    requires forall i :: 0 <= i < |g| ==> g[i] == c
    ensures forall i :: 0 <= i < |g| ==> Step(alpha, beta, squash, g)[i] == squash((alpha + 2.0 * beta) * c)
  {
    forall i | 0 <= i < |g|
      ensures Step(alpha, beta, squash, g)[i] == squash((alpha + 2.0 * beta) * c)
    {
      var n := |g|;
      assert g[Left(i, n)] == c && g[Right(i, n)] == c;
      assert Drives(alpha, beta, g)[i] == Drive(alpha, beta, g, i) == (alpha + 2.0 * beta) * c;
    }
  }

  /** With squash(0) = 0 the all-zero state is a fixed point. */
  lemma StepZero(alpha: real, beta: real, squash: real -> real, n: nat)
    requires squash(0.0) == 0.0
    ensures Step(alpha, beta, squash, Zeros(n)) == Zeros(n)
  {
    StepUniform(alpha, beta, squash, Zeros(n), 0.0);
  }

  /** numpy's `roll(g, k)`: element i of the result is `g[(i - k) mod n]`. */
  function Roll(g: seq<real>, k: int): (r: seq<real>)
    ensures |r| == |g|
  {
    seq(|g|, i requires 0 <= i < |g| => RollAt(g, k, i))
  }

  function RollAt(g: seq<real>, k: int, i: nat): real
    requires i < |g|
  {
    g[(i - k) % |g|]
  }

  function Scale(c: real, a: seq<real>): (r: seq<real>)
    ensures |r| == |a| && forall i {:trigger r[i]} :: 0 <= i < |a| ==> r[i] == c * a[i]
  {
    seq(|a|, i requires 0 <= i < |a| => c * a[i])
  }

  /** Scaling a vector scales its sum. */
  lemma {:induction false} SumScale(c: real, a: seq<real>)
    ensures Sum(Scale(c, a)) == c * Sum(a)
    decreases |a|
  {
    if a != [] {
      var n := |a| - 1;
      forall i | 0 <= i < n
        ensures Scale(c, a)[..n][i] == Scale(c, a[..n])[i]
      {
      }
      assert Scale(c, a)[..n] == Scale(c, a[..n]);
      SumScale(c, a[..n]);
    }
  }

  /** numpy's wrap-around offsets by one are the C++ kernel's neighbour indices. */
  lemma RollIndices(i: nat, n: nat)
    requires i < n
    ensures (i - 1) % n == Left(i, n) && (i - -1) % n == Right(i, n)
  {
    if i == 0 {
      assert (i - 1) % n == n - 1;
    } else {
      assert (i - 1) % n == i - 1;
    }
  }

  /**
   * The update as the Python code writes it with whole-array operations:
   * `tanh(alpha * g + beta * (roll(g, 1) + roll(g, -1)))`.
   * It is the C++ kernel's indexed rule, site for site.
   */
  function RollUpdate(alpha: real, beta: real, squash: real -> real, g: seq<real>): (next: seq<real>)
    ensures next == Step(alpha, beta, squash, g)
  {
    var d := Add(Scale(alpha, g), Scale(beta, Add(Roll(g, 1), Roll(g, -1))));
    RollDrives(alpha, beta, g);
    Map(squash, d)
  }

  /** The rolled-array argument of tanh is the indexed one. */
  lemma RollDrives(alpha: real, beta: real, g: seq<real>)
    ensures Add(Scale(alpha, g), Scale(beta, Add(Roll(g, 1), Roll(g, -1)))) == Drives(alpha, beta, g)
  {
    RollNeighbours(g);
    var sum := Add(Lefts(g), Rights(g));
    var self, others := Scale(alpha, g), Scale(beta, sum);
    var d := Add(self, others);
    forall i | 0 <= i < |g|
      ensures d[i] == Drives(alpha, beta, g)[i]
    {
      assert sum[i] == g[Left(i, |g|)] + g[Right(i, |g|)];
      assert d[i] == self[i] + others[i];
      assert Drives(alpha, beta, g)[i] == Drive(alpha, beta, g, i);
    }
  }

  /** Every site's left neighbour, and every site's right neighbour. */
  function Lefts(g: seq<real>): (r: seq<real>)
    ensures |r| == |g| && forall i {:trigger r[i]} :: 0 <= i < |g| ==> r[i] == g[Left(i, |g|)]
  {
    seq(|g|, i requires 0 <= i < |g| => g[Left(i, |g|)])
  }

  function Rights(g: seq<real>): (r: seq<real>)
    ensures |r| == |g| && forall i {:trigger r[i]} :: 0 <= i < |g| ==> r[i] == g[Right(i, |g|)]
  {
    seq(|g|, i requires 0 <= i < |g| => g[Right(i, |g|)])
  }

  /** `roll(g, 1)` brings every left neighbour into place, `roll(g, -1)` every right one. */
  lemma RollNeighbours(g: seq<real>)
    ensures Roll(g, 1) == Lefts(g) && Roll(g, -1) == Rights(g)
  {
    forall i | 0 <= i < |g|
      ensures Roll(g, 1)[i] == Lefts(g)[i] && Roll(g, -1)[i] == Rights(g)[i]
    {
      RollIndices(i, |g|);
      assert Roll(g, 1)[i] == RollAt(g, 1, i);
      assert Roll(g, -1)[i] == RollAt(g, -1, i);
    }
  }

  /** Cell (row, col) of a rows x cols grid stored row-major. */
  function At(g: seq<real>, rows: nat, cols: nat, row: nat, col: nat): real
    requires |g| == rows * cols && row < rows && col < cols
  {
    assert row * cols + col < rows * cols by {
      MulMono(row + 1, rows, cols);
    }
    g[row * cols + col]
  }

  /** Row and column of flat index f. */
  lemma RowCol(f: nat, rows: nat, cols: nat)
    requires f < rows * cols
    ensures cols > 0 && f / cols < rows && f % cols < cols
    ensures f == (f / cols) * cols + f % cols
  {
    assert cols != 0;
    assert (f / cols) * cols <= f < rows * cols;
    MulCancel(f / cols, rows, cols);
  }

  /**
   * The 2-D update on a rows x cols torus stored row-major:
   * next = squash(alpha * g + beta * (up + down + left + right) / 4),
   * each neighbour taken with wrap-around, as numpy's `roll` along either axis gives it.
   */
  function Update2D(alpha: real, beta: real, squash: real -> real, rows: nat, cols: nat, g: seq<real>): (next: seq<real>)
    requires |g| == rows * cols
    ensures |next| == |g|
  {
    Map(squash, Drives2D(alpha, beta, rows, cols, g))
  }

  function Drives2D(alpha: real, beta: real, rows: nat, cols: nat, g: seq<real>): (d: seq<real>)
    requires |g| == rows * cols
    ensures |d| == |g|
  {
    seq(|g|, f requires 0 <= f < |g| => Drive2D(alpha, beta, rows, cols, g, f))
  }

  /** The argument handed to `squash` at flat index `f` of the torus. */
  function Drive2D(alpha: real, beta: real, rows: nat, cols: nat, g: seq<real>, f: nat): real
    requires |g| == rows * cols && f < |g|
  {
    RowCol(f, rows, cols);
    var r, c := f / cols, f % cols;
    var up := At(g, rows, cols, (r - 1) % rows, c);
    var down := At(g, rows, cols, (r + 1) % rows, c);
    var left := At(g, rows, cols, r, (c - 1) % cols);
    var right := At(g, rows, cols, r, (c + 1) % cols);
    alpha * g[f] + beta * ((up + down + left + right) / 4.0)
  }

  /** Every cell of a uniform grid reads the same value. */
  lemma AtUniform(g: seq<real>, rows: nat, cols: nat, row: nat, col: nat, c: real)
    requires |g| == rows * cols && row < rows && col < cols
    requires forall i :: 0 <= i < |g| ==> g[i] == c
    ensures At(g, rows, cols, row, col) == c
  {
    assert row * cols + col < rows * cols by {
      MulMono(row + 1, rows, cols);
    }
  }

  /** A cell whose four neighbours and itself all hold c is driven by (alpha + beta) c. */
  lemma Drive2DUniform(alpha: real, beta: real, rows: nat, cols: nat, g: seq<real>, f: nat, c: real)
    requires |g| == rows * cols && f < |g|
    requires forall i :: 0 <= i < |g| ==> g[i] == c
    ensures Drive2D(alpha, beta, rows, cols, g, f) == (alpha + beta) * c
  {
    RowCol(f, rows, cols);
    var r, col := f / cols, f % cols;
    AtUniform(g, rows, cols, (r - 1) % rows, col, c);
    AtUniform(g, rows, cols, (r + 1) % rows, col, c);
    AtUniform(g, rows, cols, r, (col - 1) % cols, c);
    AtUniform(g, rows, cols, r, (col + 1) % cols, c);
    Averaged(alpha, beta, g[f], c);
  }

  /** alpha c + beta (4c / 4) == (alpha + beta) c. */
  lemma Averaged(alpha: real, beta: real, own: real, c: real)
    requires own == c
    ensures alpha * own + beta * ((c + c + c + c) / 4.0) == (alpha + beta) * c
  {
  }

  /** On the torus too, a uniform state c becomes uniform squash((alpha + beta) c). */
  lemma Update2DUniform(alpha: real, beta: real, squash: real -> real, rows: nat, cols: nat, g: seq<real>, c: real)
    requires |g| == rows * cols
    requires forall i :: 0 <= i < |g| ==> g[i] == c
    ensures forall i :: 0 <= i < |g| ==> Update2D(alpha, beta, squash, rows, cols, g)[i] == squash((alpha + beta) * c)
  {
    forall i | 0 <= i < |g|
      ensures Drives2D(alpha, beta, rows, cols, g)[i] == (alpha + beta) * c
    {
      Drive2DUniform(alpha, beta, rows, cols, g, i, c);
    }
  }
}
