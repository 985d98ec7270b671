/**
 * The C++ ASCII torus front end: the render parameters, the command-line
 * scan and the range clamps that follow it, the ramp expansion and the
 * frame timer. Numeric flag values are converted by `toReal` / `toInt`
 * (`std::stod` / `std::stoi`), given as parameters.
 */
module TorusCli {
  import opened Results
  import opened Controller
  import opened Ramps
  import TorusMetrics

  /** The renderer's settings, with `torus_R` / `torus_r` as `majorR` / `minorR`. */
  datatype RenderParams = RenderParams(
    baseWidth: int,
    baseHeight: int,
    resolutionScale: real,
    samplesPerPixel: int,
    gamma: real,
    normalSmooth: real,
    rampSize: int,
    targetFps: int,
    mode: string,
    frames: int,
    controller: string,
    ctrlInterval: int,
    wFps: real,
    wQuality: real,
    majorR: real,
    minorR: real,
    camDistance: real,
    logCsv: string)

  /** The default-constructed settings. */
  const Defaults := RenderParams(80, 24, 1.0, 1, 1.0, 0.0, 12, 30, "interactive", 300, "off", 10,
                                 0.5, 0.5, 2.5, 0.30, 10.0, "")

  /** The recognised flags, one per settable field. */
  datatype Flag =
    | Scale | Spp | Gamma | Smooth | RampSize | TargetFps | Mode | Frames
    | Control | Interval | WeightFps | WeightQuality | MajorR | MinorR | CamDist | LogCsv

  /** The flag an argument names, if any; any other argument is skipped. */
  function FlagOf(a: string): (f: Option<Flag>)
    ensures f.Some? ==> |a| >= 3 && a[0] == '-' && a[1] == '-'
  {
    if a == "--resolution-scale" then Some(Scale)
    else if a == "--samples-per-pixel" then Some(Spp)
    else if a == "--gamma" then Some(Gamma)
    else if a == "--normal-smooth" then Some(Smooth)
    else if a == "--ramp-size" then Some(RampSize)
    else if a == "--target-fps" then Some(TargetFps)
    else if a == "--mode" then Some(Mode)
    else if a == "--frames" then Some(Frames)
    else if a == "--controller" then Some(Control)
    else if a == "--ctrl-interval" then Some(Interval)
    else if a == "--w-fps" then Some(WeightFps)
    else if a == "--w-quality" then Some(WeightQuality)
    else if a == "--torus-R" then Some(MajorR)
    else if a == "--torus-r" then Some(MinorR)
    else if a == "--cam-dist" then Some(CamDist)
    else if a == "--log-csv" then Some(LogCsv)
    else None
  }

  /** A field's value, whatever its type. */
  datatype Value = Num(x: real) | Count(n: int) | Text(s: string)

  /** The value the flag's field holds. */
  function Get(p: RenderParams, f: Flag): Value
  {
    match f
    case Scale => Num(p.resolutionScale)
    case Spp => Count(p.samplesPerPixel)
    case Gamma => Num(p.gamma)
    case Smooth => Num(p.normalSmooth)
    case RampSize => Count(p.rampSize)
    case TargetFps => Count(p.targetFps)
    case Mode => Text(p.mode)
    case Frames => Count(p.frames)
    case Control => Text(p.controller)
    case Interval => Count(p.ctrlInterval)
    case WeightFps => Num(p.wFps)
    case WeightQuality => Num(p.wQuality)
    case MajorR => Num(p.majorR)
    case MinorR => Num(p.minorR)
    case CamDist => Num(p.camDistance)
    case LogCsv => Text(p.logCsv)
  }

  /** The value a token gives the flag's field: a real, an integer or the text itself. */
  function Convert(f: Flag, tok: string, toReal: string -> real, toInt: string -> int): Value
  {
    match f
    case Spp | RampSize | TargetFps | Frames | Interval => Count(toInt(tok))
    case Mode | Control | LogCsv => Text(tok)
    case _ => Num(toReal(tok))
  }

  /** The settings with the flag's field set from the token. */
  function Assign(p: RenderParams, f: Flag, tok: string, toReal: string -> real, toInt: string -> int): RenderParams
  {
    match f
    case Scale => p.(resolutionScale := toReal(tok))
    case Spp => p.(samplesPerPixel := toInt(tok))
    case Gamma => p.(gamma := toReal(tok))
    case Smooth => p.(normalSmooth := toReal(tok))
    case RampSize => p.(rampSize := toInt(tok))
    case TargetFps => p.(targetFps := toInt(tok))
    case Mode => p.(mode := tok)
    case Frames => p.(frames := toInt(tok))
    case Control => p.(controller := tok)
    case Interval => p.(ctrlInterval := toInt(tok))
    case WeightFps => p.(wFps := toReal(tok))
    case WeightQuality => p.(wQuality := toReal(tok))
    case MajorR => p.(majorR := toReal(tok))
    case MinorR => p.(minorR := toReal(tok))
    case CamDist => p.(camDistance := toReal(tok))
    case LogCsv => p.(logCsv := tok)
  }

  /** A flag writes its own field and no other. */
  lemma AssignWritesOneField(p: RenderParams, f: Flag, g: Flag, tok: string, toReal: string -> real, toInt: string -> int)
    ensures Get(Assign(p, f, tok, toReal, toInt), g) == if g == f then Convert(f, tok, toReal, toInt) else Get(p, g)
    ensures Assign(p, f, tok, toReal, toInt).baseWidth == p.baseWidth
    ensures Assign(p, f, tok, toReal, toInt).baseHeight == p.baseHeight
  {
  }

  /**
   * The argument scan from position i: a flag followed by another argument
   * takes it as its value and both are consumed; a flag in last position
   * leaves its field alone; any other argument is skipped.
   */
  function Scan(argv: seq<string>, i: nat, p: RenderParams, toReal: string -> real, toInt: string -> int): RenderParams
    decreases |argv| - i
  {
    if i >= |argv| then p
    else match FlagOf(argv[i])
      case None => Scan(argv, i + 1, p, toReal, toInt)
      case Some(f) =>
        if i + 1 < |argv| then Scan(argv, i + 2, Assign(p, f, argv[i + 1], toReal, toInt), toReal, toInt)
        else p
  }

  /**
   * Where a scanned field's value comes from: either it is the value it had,
   * or it is the conversion of the argument that follows some occurrence of
   * its flag. The two fields no flag names are never touched.
   */
  lemma {:induction false} ScanProvenance(argv: seq<string>, i: nat, p: RenderParams, f: Flag, toReal: string -> real, toInt: string -> int)
    ensures var q := Scan(argv, i, p, toReal, toInt);
      q.baseWidth == p.baseWidth && q.baseHeight == p.baseHeight &&
      (Get(q, f) == Get(p, f) ||
       exists j :: i <= j && j + 1 < |argv| && FlagOf(argv[j]) == Some(f) && Get(q, f) == Convert(f, argv[j + 1], toReal, toInt))
    decreases |argv| - i
  {
    if i < |argv| {
      match FlagOf(argv[i])
      case None =>
        ScanProvenance(argv, i + 1, p, f, toReal, toInt);
      case Some(g) =>
        if i + 1 < |argv| {
          var p' := Assign(p, g, argv[i + 1], toReal, toInt);
          ScanProvenance(argv, i + 2, p', f, toReal, toInt);
          AssignWritesOneField(p, g, f, argv[i + 1], toReal, toInt);
        }
    }
  }

  /** Arguments holding no flag leave the settings as they were. */
  lemma {:induction false} NoFlagsNoChange(argv: seq<string>, i: nat, p: RenderParams, toReal: string -> real, toInt: string -> int)
    requires forall j :: i <= j < |argv| ==> FlagOf(argv[j]).None?
    ensures Scan(argv, i, p, toReal, toInt) == p
    decreases |argv| - i
  {
    if i < |argv| {
      NoFlagsNoChange(argv, i + 1, p, toReal, toInt);
    }
  }

  /** `std::max` on reals. */
  function MaxReal(a: real, b: real): (m: real)
    ensures m >= a && m >= b && (m == a || m == b)
  {
    if a < b then b else a
  }

  /** The ranges and relations every sanitised setting satisfies. */
  predicate Sane(p: RenderParams)
  {
    && 0.25 <= p.resolutionScale <= 1.0
    && 1 <= p.samplesPerPixel <= 4
    && 0.5 <= p.gamma <= 3.0
    && 0.0 <= p.normalSmooth <= 1.0
    && 8 <= p.rampSize <= 16
    && p.targetFps >= 1
    && p.ctrlInterval >= 1
    && p.camDistance >= 0.5
    && p.majorR >= 0.1
    && 0.05 <= p.minorR < p.majorR
    && p.wFps + p.wQuality > 0.0
  }

  /**
   * The clamps after the scan. A minor radius that reaches the major one is
   * reset to 0.4 of it (at least 0.05), and non-positive weights are both reset to 0.5.
   */
  function Sanitize(p: RenderParams): (q: RenderParams)
    ensures Sane(q)
    ensures q.baseWidth == p.baseWidth && q.baseHeight == p.baseHeight
    ensures q.mode == p.mode && q.frames == p.frames && q.controller == p.controller && q.logCsv == p.logCsv
    ensures q.majorR == MaxReal(0.1, p.majorR)
    ensures MaxReal(0.05, p.minorR) < q.majorR ==> q.minorR == MaxReal(0.05, p.minorR)
    ensures MaxReal(0.05, p.minorR) >= q.majorR ==> q.minorR == MaxReal(0.05, q.majorR * 0.4)
    ensures p.wFps + p.wQuality > 0.0 ==> q.wFps == p.wFps && q.wQuality == p.wQuality
    ensures p.wFps + p.wQuality <= 0.0 ==> q.wFps == 0.5 && q.wQuality == 0.5
  {
    var bigR := MaxReal(0.1, p.majorR);
    var r0 := MaxReal(0.05, p.minorR);
    var r := if r0 >= bigR then MaxReal(0.05, bigR * 0.4) else r0;
    var reweigh := p.wFps + p.wQuality <= 0.0;
    p.(resolutionScale := ClampReal(p.resolutionScale, 0.25, 1.0),
       samplesPerPixel := ClampInt(p.samplesPerPixel, 1, 4),
       gamma := ClampReal(p.gamma, 0.5, 3.0),
       normalSmooth := ClampReal(p.normalSmooth, 0.0, 1.0),
       rampSize := ClampInt(p.rampSize, 8, 16),
       targetFps := if p.targetFps < 1 then 1 else p.targetFps,
       ctrlInterval := if p.ctrlInterval < 1 then 1 else p.ctrlInterval,
       camDistance := MaxReal(0.5, p.camDistance),
       majorR := bigR,
       minorR := r,
       wFps := if reweigh then 0.5 else p.wFps,
       wQuality := if reweigh then 0.5 else p.wQuality)
  }

  /** Sanitising leaves exactly the sane settings unchanged, so doing it twice changes nothing more. */
  lemma SanitizeFixesSane(p: RenderParams)
    ensures Sanitize(p) == p <==> Sane(p)
    ensures Sanitize(Sanitize(p)) == Sanitize(p)
  {
    var q := Sanitize(p);
    if Sane(p) {
      assert q.minorR == p.minorR;
    }
    assert Sanitize(q).minorR == q.minorR;
  }

  /** `parse_args`: the scan from argv[1] over the given settings, then the clamps. */
  method ParseArgs(argv: seq<string>, params: RenderParams, toReal: string -> real, toInt: string -> int)
    returns (p: RenderParams)
    ensures p == Sanitize(Scan(argv, 1, params, toReal, toInt))
    ensures Sane(p)
  {
    p := params;
    var i := 1;
    while i < |argv|
      invariant Scan(argv, i, p, toReal, toInt) == Scan(argv, 1, params, toReal, toInt)
      decreases |argv| - i
    {
      var a := argv[i];
      var f := FlagOf(a);
      if f.Some? && i + 1 < |argv| {
        i := i + 1;
        p := Assign(p, f.value, argv[i], toReal, toInt);
      }
      i := i + 1;
    }
    p := Sanitize(p);
  }

  /**
   * The corrected default ramp: the ten density shades of the frame metrics,
   * which the literal's "length 10" comment describes.
   */
  const ShadeRamp: string := TorusMetrics.Ramp

  /** `make_ramp`, corrected: the ten-shade ramp expanded to n characters; a negative size cannot be reserved. */
  method MakeRamp(n: int) returns (r: Result<string>)
    ensures n < 0 ==> r == Err(LengthError)
    ensures n >= 0 ==> r == Ok(Resampled(ShadeRamp, n))
  {
    if n < 0 {
      return Err(LengthError);
    }
    var ramp := Resample(ShadeRamp, n);
    return Ok(ramp);
  }

  /** The default ramp literal as written: the ten ramp characters followed by 34 letters. */
  const WrittenRamp: string := " .:-=+*#%@adkfkajnondvakdfaoivqevlasdkjfacvu"

  /** `make_ramp` over the literal as written. */
  method MakeRampAsWritten(n: int) returns (r: Result<string>)
    ensures n < 0 ==> r == Err(LengthError)
    ensures n >= 0 ==> r == Ok(Resampled(WrittenRamp, n))
  {
    if n < 0 {
      return Err(LengthError);
    }
    var ramp := Resample(WrittenRamp, n);
    return Ok(ramp);
  }

  /**
   * With the literal as written, the default twelve-character ramp ends on the
   * letter 'u', which is not a shade, where the ten-character ramp ends on '@'.
   */
  lemma WrittenRampEndsOffScale()
    ensures Defaults.rampSize == 12
    ensures |WrittenRamp| == 44 && |ShadeRamp| == 10
    ensures Resampled(WrittenRamp, 12)[11] == 'u'
    ensures TorusMetrics.RampPos('u') < 0
    ensures Resampled(ShadeRamp, 12)[11] == '@'
  {
    WrittenRampEndsOnU();
    TorusMetrics.RampPosFinds('u');
    ShadeRampEndsOnAt();
  }

  /** The written literal, resampled to twelve characters, ends on its own last character 'u'. */
  lemma WrittenRampEndsOnU()
    ensures Resampled(WrittenRamp, 12)[11] == 'u'
  {
    ResampledEnds(WrittenRamp, 12);
  }

  /** The ten-character ramp, resampled to twelve characters, ends on '@'. */
  lemma ShadeRampEndsOnAt()
    ensures Resampled(ShadeRamp, 12)[11] == '@'
  {
    ResampledEnds(ShadeRamp, 12);
  }

  /** Every shipped ramp size gives a ramp of shades running from blank to '@', in order. */
  lemma DefaultRampShades(n: int)
    requires 8 <= n <= 16
    ensures forall k :: 0 <= k < n ==> TorusMetrics.RampPos(Resampled(ShadeRamp, n)[k]) >= 0
    ensures Resampled(ShadeRamp, n)[0] == ' ' && Resampled(ShadeRamp, n)[n - 1] == '@'
    ensures forall k1, k2 :: 0 <= k1 <= k2 < n ==>
      TorusMetrics.RampPos(Resampled(ShadeRamp, n)[k1]) <= TorusMetrics.RampPos(Resampled(ShadeRamp, n)[k2])
  {
    var r := Resampled(ShadeRamp, n);
    ResampledEnds(ShadeRamp, n);
    forall k | 0 <= k < n
      ensures TorusMetrics.RampPos(r[k]) == PickIndex(10, n, k)
    {
      TorusMetrics.RampPosFinds(r[k]);
    }
    forall k1, k2 | 0 <= k1 <= k2 < n
      ensures TorusMetrics.RampPos(r[k1]) <= TorusMetrics.RampPos(r[k2])
    {
      PickMonotone(10, n, k1, k2);
    }
  }

  /** The duration of a frame in milliseconds and the rate it implies. */
  datatype FrameStats = FrameStats(fps: real, ms: real)

  /** `measure_frame_time` on two clock readings in milliseconds. */
  function MeasureFrameTime(start: real, end: real): (s: FrameStats)
    ensures s.ms == end - start
    ensures s.ms > 0.0 ==> s.fps * s.ms == 1000.0
    ensures s.ms <= 0.0 ==> s.fps == 0.0
    ensures s.fps >= 0.0
  {
    var ms := end - start;
    FrameStats(if ms > 0.0 then 1000.0 / ms else 0.0, ms)
  }
}
