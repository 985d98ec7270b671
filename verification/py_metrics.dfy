/**
 * The Python ASCII frame metrics. `char_density` clamps the character code
 * before normalising instead of clamping the result, and the quality loop
 * takes `** 0.5` where the C++ one takes `sqrt` (both are `root` here); the
 * two ports agree on every character and every frame.
 */
module PyMetrics {
  import opened TorusMetrics

  /** `max(lo, min(hi, v))` on integers. */
  function ClampCode(o: int): (r: int)
    ensures 32 <= r <= 126
    ensures 32 <= o <= 126 ==> r == o
  {
    var m := if 126 < o then 126 else o;
    if 32 < m then m else 32
  }

  /** `char_density`: a ramp character's index over 9, otherwise the code clamped to [32, 126] and normalised. */
  function PyCharDensity(c: char): (r: real)
    ensures 0.0 <= r <= 1.0
  {
    // len(ramp) - 1 is 9 for the ten-character ramp
    if RampPos(c) >= 0 then (RampPos(c) as real) / 9.0
    else ((ClampCode(c as int) - 32) as real) / ((126 - 32) as real)
  }

  /** Clamping the code to [32, 126] before normalising gives the clamped normalised code. */
  lemma ClampCodeAgrees(o: int)
    ensures ((ClampCode(o) - 32) as real) / ((126 - 32) as real) == Clamp01(((o as real) - 32.0) / (126.0 - 32.0))
  {
    if o < 32 {
      assert ((o as real) - 32.0) / 94.0 < 0.0;
    } else if o > 126 {
      assert ((o as real) - 32.0) / 94.0 > 1.0;
    }
  }

  /** Clamping the code first and clamping the density afterwards give the same value: the ports agree. */
  lemma PyDensityAgrees(c: char)
    ensures PyCharDensity(c) == Density(c)
  {
    DensityFromFinds(c, 0);
    ClampCodeAgrees(c as int);
  }

  /** The inner loop of `estimate_ascii_quality`, on the Python densities, over the row starting at offset `row`. */
  method PyAccumulateRow(buf: seq<char>, w: nat, row: nat, root: real -> real, acc0: real, cnt0: int)
    returns (acc: real, cnt: int)
    requires 3 <= w <= row && row + 2 * w <= |buf|
    ensures acc == acc0 + RowSum(buf, w, row, w - 1, root)
    ensures cnt == cnt0 + (w - 2)
  {
    acc, cnt := acc0, cnt0;
    for x := 1 to w - 1
      invariant acc == acc0 + RowSum(buf, w, row, x, root)
      invariant cnt == cnt0 + (x - 1)
    {
      var off := row + x;
      PyDensityAgrees(buf[off - 1]);
      PyDensityAgrees(buf[off + 1]);
      PyDensityAgrees(buf[off - w]);
      PyDensityAgrees(buf[off + w]);
      var cx1 := PyCharDensity(buf[off - 1]);
      var cx2 := PyCharDensity(buf[off + 1]);
      var cy1 := PyCharDensity(buf[off - w]);
      var cy2 := PyCharDensity(buf[off + w]);
      RowSumNext(buf, w, row, x, off, root);
      acc := acc + GradientLength(cx1, cx2, cy1, cy2, root);
      cnt := cnt + 1;
    }
  }

  /** Row y of the Python outer loop: summed, counted, and `row` moved to row y + 1. */
  method PyVisitRow(buf: seq<char>, w: nat, h: nat, y: nat, row: nat, root: real -> real, acc: real, cnt: int)
    returns (row': nat, acc': real, cnt': int)
    requires 3 <= w && 1 <= y && y + 2 <= h && w * h <= |buf|
    requires row == Rows(y, w) && w <= row && row + w <= |buf|
    requires acc == RowsSum(buf, w, row, root) && cnt == Rows(y - 1, w - 2)
    ensures row' == Rows(y + 1, w) && w <= row' && row' + w <= |buf|
    ensures acc' == RowsSum(buf, w, row', root)
    ensures cnt' == Rows(y, w - 2)
  {
    RowInside(y, h, w, |buf|);
    acc', cnt' := PyAccumulateRow(buf, w, row, root, acc, cnt);
    row' := row + w;
    RowsSumNext(buf, w, row, row', root);
  }

  /** `estimate_ascii_quality`: the same quality as the C++ estimator; `row` is the offset y * w of row y. */
  method PyEstimateAsciiQuality(buf: seq<char>, w: int, h: int, root: real -> real) returns (q: real)
    requires 3 <= w && 3 <= h ==> w * h <= |buf|
    ensures q == Quality(buf, w, h, root)
    ensures 0.0 <= q <= 1.0
  {
    if w < 3 || h < 3 {
      return 0.0;
    }
    var acc := 0.0;
    var cnt := 0;
    var row := w;
    RowInside(1, h, w, |buf|);
    for y := 1 to h - 1
      invariant row == Rows(y, w) && w <= row && row + w <= |buf|
      invariant acc == RowsSum(buf, w, row, root)
      invariant cnt == Rows(y - 1, w - 2)
    {
      row, acc, cnt := PyVisitRow(buf, w, h, y, row, root, acc, cnt);
    }
    QualityIsMean(buf, w, h, root, acc, cnt);
    var avg := acc / cnt as real;
    var m := if 1.0 < avg then 1.0 else avg;
    q := if 0.0 < m then m else 0.0;
  }
}
