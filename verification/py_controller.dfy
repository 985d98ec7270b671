/**
 * The Python port of the hill-climbing controller. It clamps with nested
 * `max`/`min`, fixes the deltas inside each search, and its paired search
 * reports mode "K+H" whether or not a pair was adopted.
 */
module PyController {
  import opened Controller

  /** `max(lo, min(hi, v))`. */
  function MaxMin(v: real, lo: real, hi: real): real
  {
    var m := if hi < v then hi else v;
    if lo < m then m else lo
  }

  function MaxMinInt(v: int, lo: int, hi: int): int
  {
    var m := if hi < v then hi else v;
    if lo < m then m else lo
  }

  /** `_clamp`: each field pulled into its range. */
  function PyClamp(p: Params): (q: Params)
    ensures InRange(q)
    ensures q == ClampParams(p)
  {
    Params(
      MaxMin(p.scale, 0.25, 1.0),
      MaxMinInt(p.spp, 1, 4),
      MaxMin(p.gamma, 0.5, 3.0),
      MaxMin(p.normalSmooth, 0.0, 1.0),
      MaxMinInt(p.rampSize, 8, 16))
  }

  /** The nested `try_update`, which rebinds `best_p` and `best_s`. */
  method PyTry(evaluate: Params -> real, best: Cand, p: Params) returns (next: Cand)
    ensures next == TryUpdate(evaluate, best, p)
  {
    var q := PyClamp(p);
    var s := evaluate(q);
    next := best;
    if s > best.score {
      next := Cand(q, s);
    }
  }

  /** One probe of the Python `suggest_step_K`: lever `m` moved and tried, extending the search by `m`. */
  method PyProbeLever(evaluate: Params -> real, current: Params, d: Deltas, ghost probed: seq<Move>, m: Move, best: Cand)
    returns (next: Cand)
    requires best == FoldK(evaluate, current, d, probed)
    ensures next == FoldK(evaluate, current, d, probed + [m])
  {
    FoldKSnoc(evaluate, current, d, probed, m);
    next := PyTry(evaluate, best, Apply(m, d, current));
  }

  /** The ten single-lever probes of `suggest_step_K`, in source order, with the deltas `d`. */
  method PyProbes(current: Params, evaluate: Params -> real, d: Deltas) returns (best: Cand)
    ensures best == KBest(evaluate, current, d)
  {
    best := Cand(current, evaluate(current));
    ghost var probed: seq<Move> := [];
    best := PyProbeLever(evaluate, current, d, probed, ScaleUp, best);
    probed := probed + [ScaleUp];
    best := PyProbeLever(evaluate, current, d, probed, ScaleDown, best);
    probed := probed + [ScaleDown];
    best := PyProbeLever(evaluate, current, d, probed, SppUp, best);
    probed := probed + [SppUp];
    best := PyProbeLever(evaluate, current, d, probed, SppDown, best);
    probed := probed + [SppDown];
    best := PyProbeLever(evaluate, current, d, probed, GammaUp, best);
    probed := probed + [GammaUp];
    best := PyProbeLever(evaluate, current, d, probed, GammaDown, best);
    probed := probed + [GammaDown];
    best := PyProbeLever(evaluate, current, d, probed, NsUp, best);
    probed := probed + [NsUp];
    best := PyProbeLever(evaluate, current, d, probed, NsDown, best);
    probed := probed + [NsDown];
    best := PyProbeLever(evaluate, current, d, probed, RampUp, best);
    probed := probed + [RampUp];
    best := PyProbeLever(evaluate, current, d, probed, RampDown, best);
    probed := probed + [RampDown];
    ProbeOrderAppended();
  }

  /** `suggest_step_K` with its built-in deltas: the same choice as the C++ search with the default deltas. */
  method PySuggestStepK(current: Params, evaluate: Params -> real) returns (next: Params, mode: string)
    ensures next == KBest(evaluate, current, DefaultDeltas).p
    ensures mode == "K"
  {
    var dScale, dSpp, dGamma, dNs, dRamp := 0.05, 1, 0.1, 0.1, 2;
    var best := PyProbes(current, evaluate, Deltas(dScale, dSpp, dGamma, dNs, dRamp));
    return best.p, "K";
  }

  /** The nested `try_pair`, which rebinds `best_p` and `best_s`. */
  method PyTryPair(evaluate: Params -> real, current: Params, d: Deltas, bestP: Params, bestS: real, a: Move, b: Move)
    returns (nextP: Params, nextS: real)
    ensures var c := TryPair(evaluate, current, d, Choice(bestP, bestS, "K+H"), a, b);
      nextP == c.p && nextS == c.score
  {
    var pa := PyClamp(Apply(a, d, current));
    var pb := PyClamp(Apply(b, d, current));
    var pab := PyClamp(Apply(b, d, pa));
    var s0, sa, sb, sab := evaluate(current), evaluate(pa), evaluate(pb), evaluate(pab);
    var synergy := (sab - s0) - ((sa - s0) + (sb - s0));
    nextP, nextS := bestP, bestS;
    if synergy > 0.0 && sab > bestS {
      nextS := sab;
      nextP := pab;
    }
  }

  /** One `try_pair` call of the Python paired search: the pair (a, b) tried after the pairs in `tried`. */
  method PyPairStep(evaluate: Params -> real, current: Params, ghost tried: seq<(Move, Move)>, a: Move, b: Move, bestP: Params, bestS: real)
    returns (nextP: Params, nextS: real)
    requires var c := FoldKH(evaluate, current, DefaultDeltas, tried); bestP == c.p && bestS == c.score
    ensures var c := FoldKH(evaluate, current, DefaultDeltas, tried + [(a, b)]); nextP == c.p && nextS == c.score
  {
    FoldKHSnoc(evaluate, current, DefaultDeltas, tried, a, b);
    nextP, nextS := PyTryPair(evaluate, current, DefaultDeltas, bestP, bestS, a, b);
  }

  /**
   * `suggest_step_KH`: the same parameters as the C++ paired search with the
   * default deltas, but the mode is "K+H" even when no pair was adopted.
   */
  method PySuggestStepKH(current: Params, evaluate: Params -> real) returns (next: Params, mode: string)
    ensures next == FoldKH(evaluate, current, DefaultDeltas, PairOrder).p
    ensures mode == "K+H"
  {
    var bestP, _ := PySuggestStepK(current, evaluate);
    var bestS := evaluate(bestP);
    ghost var tried: seq<(Move, Move)> := [];
    bestP, bestS := PyPairStep(evaluate, current, tried, ScaleUp, SppUp, bestP, bestS);
    tried := tried + [(ScaleUp, SppUp)];
    bestP, bestS := PyPairStep(evaluate, current, tried, GammaUp, NsUp, bestP, bestS);
    tried := tried + [(GammaUp, NsUp)];
    bestP, bestS := PyPairStep(evaluate, current, tried, ScaleDown, GammaUp, bestP, bestS);
    tried := tried + [(ScaleDown, GammaUp)];
    PairOrderAppended();
    return bestP, "K+H";
  }

  /** `suggest_step`: the paired search iff `use_h`. */
  method PySuggestStep(current: Params, evaluate: Params -> real, useH: bool) returns (next: Params, mode: string)
    ensures useH ==> next == FoldKH(evaluate, current, DefaultDeltas, PairOrder).p && mode == "K+H"
    ensures !useH ==> next == KBest(evaluate, current, DefaultDeltas).p && mode == "K"
  {
    if useH {
      next, mode := PySuggestStepKH(current, evaluate);
    } else {
      next, mode := PySuggestStepK(current, evaluate);
    }
  }

  /**
   * The two ports pick the same parameters; they differ only in the mode
   * label, which the Python paired search reports as "K+H" even when it
   * kept the K suggestion (where the C++ search reports "K").
   */
  lemma PortsAgree(evaluate: Params -> real, current: Params)
    ensures var c := FoldKH(evaluate, current, DefaultDeltas, PairOrder);
      c.mode == "K" ==> c.p == KBest(evaluate, current, DefaultDeltas).p
  {
    FoldKHScore(evaluate, current, DefaultDeltas, PairOrder);
  }
}
