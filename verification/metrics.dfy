/**
 * The C++ ASCII frame metrics: a luminance ranking of characters, an edge
 * strength over the interior of a w x h frame, a density-space similarity
 * between two frames and an exponential moving average. `root` stands for
 * `std::sqrt`.
 */
module TorusMetrics {

  /** The luminance ramp, from space (dark) to '@' (bright). */
  const Ramp: string := " .:-=+*#%@"

  /** `std::clamp(v, 0.0, 1.0)`. */
  function Clamp01(v: real): (r: real)
    ensures 0.0 <= r <= 1.0
    ensures 0.0 <= v <= 1.0 ==> r == v
    ensures v < 0.0 ==> r == 0.0
    ensures v > 1.0 ==> r == 1.0
  {
    if v < 0.0 then 0.0 else if 1.0 < v then 1.0 else v
  }

  /** The first position at or after i where the ramp holds `c`, or -1 when there is none. */
  function RampFrom(c: char, i: nat): (r: int)
    requires i <= |Ramp|
    ensures r == -1 || i <= r < |Ramp|
    decreases |Ramp| - i
  {
    if i == |Ramp| then -1 else if Ramp[i] == c then i else RampFrom(c, i + 1)
  }

  /** The position of `c` in the ramp (Python's `ramp.index(c)`), or -1 for a character that is not on it. */
  function RampPos(c: char): (r: int)
    ensures -1 <= r < |Ramp|
  {
    RampFrom(c, 0)
  }

  /** The search from i lands on `c`, and on no position after an occurrence of `c` from i on. */
  lemma {:induction false} RampFromFinds(c: char, i: nat)
    requires i <= |Ramp|
    ensures RampFrom(c, i) >= 0 ==> Ramp[RampFrom(c, i)] == c
    ensures forall j :: i <= j < |Ramp| && Ramp[j] == c ==> 0 <= RampFrom(c, i) <= j
    decreases |Ramp| - i
  {
    if i < |Ramp| && Ramp[i] != c {
      RampFromFinds(c, i + 1);
    }
  }

  /** `RampPos` is the search of the ramp: it finds exactly the ramp's characters, each at its own position. */
  lemma RampPosFinds(c: char)
    ensures RampPos(c) >= 0 <==> c in Ramp
    ensures RampPos(c) >= 0 ==> Ramp[RampPos(c)] == c
    ensures forall i :: 0 <= i < |Ramp| && Ramp[i] == c ==> RampPos(c) == i
  {
    RampFromFinds(c, 0);
  }

  /** The coarse fallback: the character code mapped from [32, 126] onto [0, 1], clamped. */
  function CodeDensity(c: char): (r: real)
    ensures 0.0 <= r <= 1.0
    ensures c as int <= 32 ==> r == 0.0
    ensures 126 <= c as int ==> r == 1.0
  {
    Clamp01(((c as int) as real - 32.0) / (126.0 - 32.0))
  }

  /**
   * The search of `char_density` from ramp position i on: the position of
   * the first match over 9, or the code density when no later position
   * matches.
   */
  function DensityFrom(c: char, i: nat): real
    requires i <= |Ramp|
    decreases |Ramp| - i
  {
    if i == |Ramp| then CodeDensity(c)
    else if Ramp[i] == c then (i as real) / 9.0
    else DensityFrom(c, i + 1)
  }

  /** `char_density`: the search of the whole ramp. */
  function Density(c: char): real
  {
    DensityFrom(c, 0)
  }

  /** The search from i gives the position found from i over 9, or the code density when there is none. */
  lemma {:induction false} DensityFromFinds(c: char, i: nat)
    requires i <= |Ramp|
    ensures DensityFrom(c, i) == if RampFrom(c, i) >= 0 then (RampFrom(c, i) as real) / 9.0 else CodeDensity(c)
    decreases |Ramp| - i
  {
    if i < |Ramp| && Ramp[i] != c {
      DensityFromFinds(c, i + 1);
    }
  }

  /**
   * A density is in [0, 1]. Character i of the ramp ranks i/9, so ' ' is 0
   * and '@' is 1; a character off the ramp gets its code density.
   */
  lemma RampDensity(c: char)
    ensures 0.0 <= Density(c) <= 1.0
    ensures Density(c) == if RampPos(c) >= 0 then (RampPos(c) as real) / 9.0 else CodeDensity(c)
    ensures forall i :: 0 <= i < |Ramp| && Ramp[i] == c ==> Density(c) == (i as real) / 9.0
    ensures c !in Ramp ==> Density(c) == CodeDensity(c)
    ensures Density(' ') == 0.0 && Density('@') == 1.0
  {
    DensityFromFinds(c, 0);
    RampPosFinds(c);
  }

  /** The search loop of `char_density`, returning at the first ramp match. */
  method CharDensity(c: char) returns (r: real)
    ensures r == Density(c)
  {
    var n := 10;
    for i := 0 to n
      invariant DensityFrom(c, i) == Density(c)
    {
      if Ramp[i] == c {
        return (i as real) / ((n - 1) as real);
      }
    }
    var uc := c as int;
    r := Clamp01((uc as real - 32.0) / (126.0 - 32.0));
  }

  /** The edge strength at offset `off`: the length of the central-difference density gradient. */
  function CellGradient(buf: seq<char>, w: nat, off: nat, root: real -> real): real
    requires 1 <= w <= off && off + w < |buf| && off + 1 < |buf|
  {
    GradientLength(Density(buf[off - 1]), Density(buf[off + 1]), Density(buf[off - w]), Density(buf[off + w]), root)
  }

  /** The length of half the differences across a cell, horizontally and vertically. */
  function GradientLength(cx1: real, cx2: real, cy1: real, cy2: real, root: real -> real): real
  {
    var gx := 0.5 * (cx2 - cx1);
    var gy := 0.5 * (cy2 - cy1);
    root(gx * gx + gy * gy)
  }

  /**
   * The edge strengths of cells 1 .. x-1 of the row starting at offset
   * `row`, which has a row above it and one below it.
   */
  function RowSum(buf: seq<char>, w: nat, row: nat, x: nat, root: real -> real): real
    requires 3 <= w <= row && 1 <= x <= w - 1 && row + 2 * w <= |buf|
  {
    if x == 1 then 0.0
    else RowSum(buf, w, row, x - 1, root) + CellGradient(buf, w, row + x - 1, root)
  }

  /** The edge strengths of the interior cells of the rows starting at w, 2w, ..., up to but not including `top`. */
  function RowsSum(buf: seq<char>, w: nat, top: nat, root: real -> real): real
    requires 3 <= w <= top && top + w <= |buf|
    decreases top
  {
    if top == w then 0.0
    else if top < 2 * w then 0.0
    else RowsSum(buf, w, top - w, root) + RowSum(buf, w, top - w, w - 1, root)
  }

  /** y * w + w is (y + 1) * w. */
  lemma NextRow(y: int, w: int)
    ensures (y + 1) * w == y * w + w
  {
  }

  /** Fewer rows of width w take no more room. */
  lemma {:induction false} RowsBelow(y: int, h: int, w: int)
    requires y <= h && 0 <= w
    ensures y * w <= h * w
    decreases h - y
  {
    if y < h {
      RowsBelow(y + 1, h, w);
      NextRow(y, w);
    }
  }

  /**
   * `estimate_ascii_quality`: zero for a frame narrower or shorter than
   * three; otherwise the mean edge strength over the (h-2)(w-2) interior
   * cells, clamped to [0, 1].
   */
  function Quality(buf: seq<char>, w: int, h: int, root: real -> real): (q: real)
    requires 3 <= w && 3 <= h ==> w * h <= |buf|
    ensures 0.0 <= q <= 1.0
    ensures w < 3 || h < 3 ==> q == 0.0
  {
    if w < 3 || h < 3 then 0.0
    else
      NextRow(h - 1, w);
      assert w <= (h - 1) * w by { NextRow(h - 2, w); }
      RowsBelow(1, h - 2, w - 2);
      Clamp01(RowsSum(buf, w, (h - 1) * w, root) / ((h - 2) * (w - 2)) as real)
  }

  /** A cell whose opposite neighbours match has gradient sqrt(0). */
  lemma CellGradientFlat(buf: seq<char>, w: nat, off: nat, root: real -> real)
    requires 1 <= w <= off && off + w < |buf| && off + 1 < |buf|
    requires buf[off + 1] == buf[off - 1] && buf[off + w] == buf[off - w]
    ensures CellGradient(buf, w, off, root) == root(0.0)
  {
    var a, b := Density(buf[off + 1]), Density(buf[off + w]);
    var gx, gy := 0.5 * (a - a), 0.5 * (b - b);
    assert gx * gx + gy * gy == 0.0;
  }

  /** Every interior cell of a frame made of one character has no edge, when sqrt(0) = 0. */
  lemma {:induction false} RowSumFlat(buf: seq<char>, w: nat, row: nat, x: nat, root: real -> real)
    requires 3 <= w <= row && 1 <= x <= w - 1 && row + 2 * w <= |buf|
    requires forall i :: 0 <= i < |buf| ==> buf[i] == buf[0]
    requires root(0.0) == 0.0
    ensures RowSum(buf, w, row, x, root) == 0.0
  {
    if x > 1 {
      RowSumFlat(buf, w, row, x - 1, root);
      var off := row + x - 1;
      CellGradientFlat(buf, w, off, root);
    }
  }

  lemma {:induction false} RowsSumFlat(buf: seq<char>, w: nat, top: nat, root: real -> real)
    requires 3 <= w <= top && top + w <= |buf|
    requires forall i :: 0 <= i < |buf| ==> buf[i] == buf[0]
    requires root(0.0) == 0.0
    ensures RowsSum(buf, w, top, root) == 0.0
    decreases top
  {
    if top >= 2 * w {
      RowsSumFlat(buf, w, top - w, root);
      RowSumFlat(buf, w, top - w, w - 1, root);
    }
  }

  /** A frame of one repeated character has quality zero: there are no edges to see. */
  lemma QualityOfFlatFrame(buf: seq<char>, w: int, h: int, root: real -> real)
    requires 3 <= w && 3 <= h && w * h <= |buf|
    requires forall i :: 0 <= i < |buf| ==> buf[i] == buf[0]
    requires root(0.0) == 0.0
    ensures Quality(buf, w, h, root) == 0.0
  {
    RowInside(h - 2, h, w, |buf|);
    var top := Rows(h - 1, w);
    RowsSumFlat(buf, w, top, root);
    var cnt := Rows(h - 2, w - 2);
    QualityIsMean(buf, w, h, root, 0.0, cnt);
    ZeroOver(cnt as real);
  }

  lemma ZeroOver(d: real)
    requires d != 0.0
    ensures 0.0 / d == 0.0
  {
  }

  /** The body of the inner loop of `estimate_ascii_quality`: the densities around `off` and their gradient length. */
  method Gradient(buf: seq<char>, w: nat, off: nat, root: real -> real) returns (g: real)
    requires 1 <= w <= off && off + w < |buf| && off + 1 < |buf|
    ensures g == CellGradient(buf, w, off, root)
  {
    var cx1 := Density(buf[off - 1]);
    var cx2 := Density(buf[off + 1]);
    var cy1 := Density(buf[off - w]);
    var cy2 := Density(buf[off + w]);
    g := GradientLength(cx1, cx2, cy1, cy2, root);
  }

  /** One more cell of the row adds its edge strength. */
  lemma RowSumNext(buf: seq<char>, w: nat, row: nat, x: nat, off: nat, root: real -> real)
    requires 3 <= w <= row && 1 <= x < w - 1 && off == row + x && row + 2 * w <= |buf|
    ensures RowSum(buf, w, row, x + 1, root) == RowSum(buf, w, row, x, root) + CellGradient(buf, w, off, root)
  {
  }

  /** A total of the rows above `row` plus the sum of row `row` is the total of the rows above the next one. */
  lemma RowsSumNext(buf: seq<char>, w: nat, row: nat, next: nat, root: real -> real)
    requires 3 <= w <= row && next == row + w && next + w <= |buf|
    ensures RowsSum(buf, w, next, root) == RowsSum(buf, w, row, root) + RowSum(buf, w, row, w - 1, root)
  {
  }

  /** y * w as repeated addition: the offset of row y of width w, or the number of cells in y rows of w. */
  function Rows(y: nat, w: nat): nat
  {
    if y == 0 then 0 else Rows(y - 1, w) + w
  }

  lemma {:induction false} RowsIsProduct(y: nat, w: nat)
    ensures Rows(y, w) == y * w
  {
    if y > 0 {
      RowsIsProduct(y - 1, w);
      NextRow(y - 1, w);
    }
  }

  /** Row y of a w x h frame, for 1 <= y < h - 1, has a row above it and one below it inside the frame. */
  lemma RowInside(y: nat, h: nat, w: nat, n: nat)
    requires 1 <= y && y + 2 <= h && w * h <= n
    ensures w <= Rows(y, w) && Rows(y, w) + 2 * w <= n
  {
    RowsIsProduct(y, w);
    RowInsideProduct(y, h, w);
  }

  lemma RowInsideProduct(y: int, h: int, w: int)
    requires 1 <= y && y + 2 <= h && 0 <= w
    ensures w <= y * w && y * w + 2 * w <= w * h
  {
    NextRow(y + 1, w);
    NextRow(y, w);
    RowsBelow(y + 2, h, w);
    RowsBelow(1, y, w);
  }

  /**
   * The inner loop of `estimate_ascii_quality`: add the gradients of cells
   * 1 .. w-2 of the row whose first cell is at offset `row` (y * w for row
   * y), and count them.
   */
  method AccumulateRow(buf: seq<char>, w: nat, row: nat, root: real -> real, acc0: real, cnt0: int)
    returns (acc: real, cnt: int)
    requires 3 <= w <= row && row + 2 * w <= |buf|
    ensures acc == acc0 + RowSum(buf, w, row, w - 1, root)
    ensures cnt == cnt0 + (w - 2)
  {
    acc, cnt := acc0, cnt0;
    for x := 1 to w - 1
      invariant acc == acc0 + RowSum(buf, w, row, x, root)
      invariant cnt == cnt0 + (x - 1)
    {
      var off := row + x;
      var g := Gradient(buf, w, off, root);
      RowSumNext(buf, w, row, x, off, root);
      acc := acc + g;
      cnt := cnt + 1;
    }
  }

  /** Once rows 1 .. h-2 are summed and counted, the mean edge strength clamped is the quality. */
  lemma QualityIsMean(buf: seq<char>, w: int, h: int, root: real -> real, acc: real, cnt: int)
    requires 3 <= w && 3 <= h && w * h <= |buf|
    requires Rows(h - 1, w) + w <= |buf| && w <= Rows(h - 1, w)
    requires acc == RowsSum(buf, w, Rows(h - 1, w), root) && cnt == Rows(h - 2, w - 2)
    ensures cnt > 0 && Quality(buf, w, h, root) == Clamp01(acc / cnt as real)
  {
    RowsIsProduct(h - 1, w);
    RowsIsProduct(h - 2, w - 2);
    RowsBelow(1, h - 2, w - 2);
  }

  /** Row y of the outer loop: its cells summed into `acc` and counted into `cnt`, and `row` moved to row y + 1. */
  method VisitRow(buf: seq<char>, w: nat, h: nat, y: nat, row: nat, root: real -> real, acc: real, cnt: int)
    returns (row': nat, acc': real, cnt': int)
    requires 3 <= w && 1 <= y && y + 2 <= h && w * h <= |buf|
    requires row == Rows(y, w) && w <= row && row + w <= |buf|
    requires acc == RowsSum(buf, w, row, root) && cnt == Rows(y - 1, w - 2)
    ensures row' == Rows(y + 1, w) && w <= row' && row' + w <= |buf|
    ensures acc' == RowsSum(buf, w, row', root)
    ensures cnt' == Rows(y, w - 2)
  {
    RowInside(y, h, w, |buf|);
    acc', cnt' := AccumulateRow(buf, w, row, root, acc, cnt);
    row' := row + w;
    RowsSumNext(buf, w, row, row', root);
  }

  /**
   * The accumulating loops of `estimate_ascii_quality`, visiting rows 1 .. h-2
   * and columns 1 .. w-2; `row` is the offset y * w of row y.
   */
  method EstimateAsciiQuality(buf: seq<char>, w: int, h: int, root: real -> real) returns (q: real)
    requires 3 <= w && 3 <= h ==> w * h <= |buf|
    ensures q == Quality(buf, w, h, root)
  {
    if w < 3 || h < 3 {
      return 0.0;
    }
    var acc := 0.0;
    var cnt := 0;
    var row := w;
    RowInside(1, h, w, |buf|);
    for y := 1 to h - 1
      invariant row == Rows(y, w) && w <= row && row + w <= |buf|
      invariant acc == RowsSum(buf, w, row, root)
      invariant cnt == Rows(y - 1, w - 2)
    {
      row, acc, cnt := VisitRow(buf, w, h, y, row, root, acc, cnt);
    }
    QualityIsMean(buf, w, h, root, acc, cnt);
    // cnt is (h-2)(w-2) > 0 here, so the source's zero-count guard never fires.
    var avg := acc / cnt as real;
    q := Clamp01(avg);
  }

  function Sq(x: real): (r: real)
    ensures r >= 0.0
  {
    x * x
  }

  /** Sum over the first n positions of the squared density differences. */
  function SqErrSum(buf: seq<char>, ref: seq<char>, n: nat): (r: real)
    requires n <= |buf| && n <= |ref|
    ensures r >= 0.0
  {
    if n == 0 then 0.0
    else
      SqErrSum(buf, ref, n - 1) + Sq(Density(buf[n - 1]) - Density(ref[n - 1]))
  }

  /**
   * `estimate_ascii_similarity`: zero when the frames differ in size or do
   * not hold w*h characters, or are empty; otherwise one minus the mean
   * squared density difference, clamped to [0, 1].
   */
  function Similarity(buf: seq<char>, ref: seq<char>, w: int, h: int): (s: real)
    ensures 0.0 <= s <= 1.0
    ensures |buf| != |ref| || |buf| != w * h || |buf| == 0 ==> s == 0.0
  {
    if |buf| != |ref| || |buf| != w * h then 0.0
    else if w * h == 0 then 0.0
    else Clamp01(1.0 - SqErrSum(buf, ref, |buf|) / (|buf| as real))
  }

  lemma {:induction false} SqErrSumSelf(buf: seq<char>, n: nat)
    requires n <= |buf|
    ensures SqErrSum(buf, buf, n) == 0.0
  {
    if n > 0 {
      SqErrSumSelf(buf, n - 1);
    }
  }

  lemma {:induction false} SqErrSumSymmetric(buf: seq<char>, ref: seq<char>, n: nat)
    requires n <= |buf| && n <= |ref|
    ensures SqErrSum(buf, ref, n) == SqErrSum(ref, buf, n)
  {
    if n > 0 {
      SqErrSumSymmetric(buf, ref, n - 1);
      var e := Density(buf[n - 1]) - Density(ref[n - 1]);
      assert Sq(e) == Sq(-e);
    }
  }

  /** A non-empty frame compared with itself has similarity exactly one. */
  lemma SimilarityIdentical(buf: seq<char>, w: int, h: int)
    requires |buf| == w * h && |buf| > 0
    ensures Similarity(buf, buf, w, h) == 1.0
  {
    SqErrSumSelf(buf, |buf|);
  }

  /** Similarity does not depend on which frame is the reference. */
  lemma SimilaritySymmetric(buf: seq<char>, ref: seq<char>, w: int, h: int)
    ensures Similarity(buf, ref, w, h) == Similarity(ref, buf, w, h)
  {
    if |buf| == |ref| {
      SqErrSumSymmetric(buf, ref, |buf|);
    }
  }

  /** The accumulating loop of `estimate_ascii_similarity`. */
  method EstimateAsciiSimilarity(buf: seq<char>, ref: seq<char>, w: int, h: int) returns (sim: real)
    ensures sim == Similarity(buf, ref, w, h)
  {
    if |buf| != |ref| || |buf| != w * h {
      return 0.0;
    }
    var acc := 0.0;
    var cnt := w * h;
    for i := 0 to cnt
      invariant acc == SqErrSum(buf, ref, i)
    {
      var d := Density(buf[i]);
      var r := Density(ref[i]);
      var e := d - r;
      acc := acc + Sq(e);
    }
    if cnt == 0 {
      return 0.0;
    }
    var mse := acc / cnt as real;
    sim := 1.0 - mse;
    if sim < 0.0 {
      sim := 0.0;
    }
    if sim > 1.0 {
      sim := 1.0;
    }
  }

  /**
   * `moving_average`: weight `alpha` on the new sample. Weight 0 keeps the
   * previous average, weight 1 takes the sample, and any weight in [0, 1]
   * lands between the two.
   */
  function MovingAverage(prev: real, current: real, alpha: real): (r: real)
    ensures alpha == 0.0 ==> r == prev
    ensures alpha == 1.0 ==> r == current
    ensures r - prev == alpha * (current - prev)
  {
    alpha * current + (1.0 - alpha) * prev
  }

  lemma MulNonneg(a: real, b: real)
    requires 0.0 <= a && 0.0 <= b
    ensures 0.0 <= a * b
  {
  }

  /** With a weight in [0, 1] the new average lies between the previous one and the sample. */
  lemma MovingAverageBetween(prev: real, current: real, alpha: real)
    requires 0.0 <= alpha <= 1.0
    ensures prev <= current ==> prev <= MovingAverage(prev, current, alpha) <= current
    ensures current <= prev ==> current <= MovingAverage(prev, current, alpha) <= prev
  {
    var r := MovingAverage(prev, current, alpha);
    assert (1.0 - alpha) * (current - prev) == (current - r);
    if prev <= current {
      MulNonneg(alpha, current - prev);
      MulNonneg(1.0 - alpha, current - prev);
    } else {
      MulNonneg(alpha, prev - current);
      MulNonneg(1.0 - alpha, prev - current);
    }
  }

  /** The default weight of `moving_average`. */
  const DefaultSmoothing: real := 0.1
}
