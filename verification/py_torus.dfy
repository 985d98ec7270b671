/**
 * The Python ASCII torus's ramp builder. It resamples the ten-character
 * ramp like the C++ `make_ramp`, except that every size up to 1 (zero and
 * negative sizes included) gives the one-character ramp.
 */
module PyTorus {
  import opened Ramps
  import TorusMetrics

  /** `build_ramp`: the ramp resampled to `size` characters, or its first character alone when size <= 1. */
  method BuildRamp(size: int) returns (ramp: string)
    ensures size <= 1 ==> ramp == [TorusMetrics.Ramp[0]]
    ensures size >= 1 ==> ramp == Resampled(TorusMetrics.Ramp, size)
    ensures size >= 2 ==> ramp[0] == ' ' && ramp[size - 1] == '@'
  {
    var base := TorusMetrics.Ramp;
    if size <= 1 {
      assert size == 1 ==> Resampled(base, 1)[0] == base[0];
      return [base[0]];
    }
    if size == |base| {
      ResampledIdentity(base);
      return base;
    }
    var out := [];
    for i := 0 to size
      invariant |out| == i
      invariant forall k :: 0 <= k < i ==> out[k] == Resampled(base, size)[k]
    {
      var c := base[PickIndex(|base|, size, i)];
      out := out + [c];
    }
    ResampledEnds(base, size);
    ramp := out;
  }
}
