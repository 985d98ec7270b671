/**
 * The C++ hill-climbing controller for the ASCII torus renderer: a clamp of
 * the five render parameters, single-lever probes that keep the best score
 * seen ("K"), and three paired probes adopted only on positive synergy
 * ("K+H"). The scoring callback is a pure function parameter.
 */
module Controller {

  /** `ParamVector`: resolution scale, samples per pixel, gamma, normal smoothing, ramp size. */
  datatype Params = Params(scale: real, spp: int, gamma: real, normalSmooth: real, rampSize: int)

  /** `ProbeDeltas`: the step taken on each lever. */
  datatype Deltas = Deltas(dScale: real, dSpp: int, dGamma: real, dNs: real, dRamp: int)

  const DefaultDeltas: Deltas := Deltas(0.05, 1, 0.1, 0.1, 2)

  /** `StepSuggestion`: the next parameters and the mode that chose them. */
  datatype Suggestion = Suggestion(next: Params, mode: string)

  /** `std::clamp(v, lo, hi)`. */
  function ClampReal(v: real, lo: real, hi: real): (c: real)
    requires lo <= hi
    ensures lo <= c <= hi
    ensures lo <= v <= hi ==> c == v
    ensures v < lo ==> c == lo
    ensures hi < v ==> c == hi
  {
    if v < lo then lo else if hi < v then hi else v
  }

  /** `std::clamp` on the integer levers. */
  function ClampInt(v: int, lo: int, hi: int): (c: int)
    requires lo <= hi
    ensures lo <= c <= hi
    ensures lo <= v <= hi ==> c == v
    ensures v < lo ==> c == lo
    ensures hi < v ==> c == hi
  {
    if v < lo then lo else if hi < v then hi else v
  }

  /** Every field in its documented range. */
  predicate InRange(p: Params)
  {
    && 0.25 <= p.scale <= 1.0
    && 1 <= p.spp <= 4
    && 0.5 <= p.gamma <= 3.0
    && 0.0 <= p.normalSmooth <= 1.0
    && 8 <= p.rampSize <= 16
  }

  /** Clamp every field into its range; a record already in range comes back unchanged. */
  function ClampParams(p: Params): (q: Params)
    ensures InRange(q)
    ensures InRange(p) ==> q == p
  {
    Params(
      ClampReal(p.scale, 0.25, 1.0),
      ClampInt(p.spp, 1, 4),
      ClampReal(p.gamma, 0.5, 3.0),
      ClampReal(p.normalSmooth, 0.0, 1.0),
      ClampInt(p.rampSize, 8, 16))
  }

  lemma ClampIdempotent(p: Params)
    ensures ClampParams(ClampParams(p)) == ClampParams(p)
  {
  }

  /** One lever moved one way. */
  datatype Move = ScaleUp | ScaleDown | SppUp | SppDown | GammaUp | GammaDown | NsUp | NsDown | RampUp | RampDown

  /** `p` with exactly the field `m` names moved by its delta, every other field kept. */
  function Apply(m: Move, d: Deltas, p: Params): (q: Params)
    ensures m == ScaleUp || m == ScaleDown ==> q.spp == p.spp && q.gamma == p.gamma && q.normalSmooth == p.normalSmooth && q.rampSize == p.rampSize
    ensures m == SppUp || m == SppDown ==> q.scale == p.scale && q.gamma == p.gamma && q.normalSmooth == p.normalSmooth && q.rampSize == p.rampSize
    ensures m == GammaUp || m == GammaDown ==> q.scale == p.scale && q.spp == p.spp && q.normalSmooth == p.normalSmooth && q.rampSize == p.rampSize
    ensures m == NsUp || m == NsDown ==> q.scale == p.scale && q.spp == p.spp && q.gamma == p.gamma && q.rampSize == p.rampSize
    ensures m == RampUp || m == RampDown ==> q.scale == p.scale && q.spp == p.spp && q.gamma == p.gamma && q.normalSmooth == p.normalSmooth
  {
    match m
    case ScaleUp => p.(scale := p.scale + d.dScale)
    case ScaleDown => p.(scale := p.scale - d.dScale)
    case SppUp => p.(spp := p.spp + d.dSpp)
    case SppDown => p.(spp := p.spp - d.dSpp)
    case GammaUp => p.(gamma := p.gamma + d.dGamma)
    case GammaDown => p.(gamma := p.gamma - d.dGamma)
    case NsUp => p.(normalSmooth := p.normalSmooth + d.dNs)
    case NsDown => p.(normalSmooth := p.normalSmooth - d.dNs)
    case RampUp => p.(rampSize := p.rampSize + d.dRamp)
    case RampDown => p.(rampSize := p.rampSize - d.dRamp)
  }

  /** The order in which `suggest_step_K` probes the levers. */
  const ProbeOrder: seq<Move> := [ScaleUp, ScaleDown, SppUp, SppDown, GammaUp, GammaDown, NsUp, NsDown, RampUp, RampDown]

  /** The three pairs `suggest_step_KH` tries, in order. */
  const PairOrder: seq<(Move, Move)> := [(ScaleUp, SppUp), (GammaUp, NsUp), (ScaleDown, GammaUp)]

  /** A single-lever probe: `current` moved by `m`, then clamped. */
  function Probe(current: Params, d: Deltas, m: Move): (q: Params)
    ensures InRange(q)
  {
    ClampParams(Apply(m, d, current))
  }

  /** The best candidate so far and its score. */
  datatype Cand = Cand(p: Params, score: real)

  /** `try_update`: clamp, score, and keep the probe only if it beats the best strictly. */
  function TryUpdate(evaluate: Params -> real, best: Cand, p: Params): Cand
  {
    var q := ClampParams(p);
    var s := evaluate(q);
    if s > best.score then Cand(q, s) else best
  }

  /** The best candidate after probing `moves` in order, starting from `current` and its score. */
  function FoldK(evaluate: Params -> real, current: Params, d: Deltas, moves: seq<Move>): Cand
    decreases |moves|
  {
    if moves == [] then Cand(current, evaluate(current))
    else TryUpdate(evaluate, FoldK(evaluate, current, d, moves[..|moves| - 1]), Apply(moves[|moves| - 1], d, current))
  }

  /** Probing one more move is one more `try_update` on the best so far. */
  lemma FoldKSnoc(evaluate: Params -> real, current: Params, d: Deltas, moves: seq<Move>, m: Move)
    ensures FoldK(evaluate, current, d, moves + [m]) == TryUpdate(evaluate, FoldK(evaluate, current, d, moves), Apply(m, d, current))
  {
    assert (moves + [m])[..|moves|] == moves;
  }

  /** What `suggest_step_K` settles on. */
  function KBest(evaluate: Params -> real, current: Params, d: Deltas): Cand
  {
    FoldK(evaluate, current, d, ProbeOrder)
  }

  /** One `try_update` never loses score, and leaves the score at least that of the clamped probe. */
  lemma TryUpdateKeeps(evaluate: Params -> real, best: Cand, p: Params)
    ensures var c := TryUpdate(evaluate, best, p);
      && c.score >= best.score
      && c.score >= evaluate(ClampParams(p))
      && (c == best || (c.p == ClampParams(p) && c.score == evaluate(c.p) && c.score > best.score))
  {
  }

  /** The single-lever search carries its own score and never scores below `current`. */
  lemma {:induction false} FoldKScore(evaluate: Params -> real, current: Params, d: Deltas, moves: seq<Move>)
    ensures var c := FoldK(evaluate, current, d, moves);
      c.score == evaluate(c.p) && c.score >= evaluate(current)
  {
    if moves != [] {
      var front := moves[..|moves| - 1];
      FoldKScore(evaluate, current, d, front);
      TryUpdateKeeps(evaluate, FoldK(evaluate, current, d, front), Apply(moves[|moves| - 1], d, current));
    }
  }

  /** The single-lever search scores at least as well as any probed move (the `k`-th one). */
  lemma {:induction false} FoldKBeatsProbe(evaluate: Params -> real, current: Params, d: Deltas, moves: seq<Move>, k: nat, m: Move)
    requires k < |moves| && moves[k] == m
    ensures FoldK(evaluate, current, d, moves).score >= evaluate(Probe(current, d, m))
    decreases |moves|
  {
    var front := moves[..|moves| - 1];
    TryUpdateKeeps(evaluate, FoldK(evaluate, current, d, front), Apply(moves[|moves| - 1], d, current));
    if k < |front| {
      assert front[k] == moves[k];
      FoldKBeatsProbe(evaluate, current, d, front, k, m);
    }
  }

  /** The index in `moves` of the probe the single-lever search settles on, or -1 when it keeps `current`. */
  function Adopted(evaluate: Params -> real, current: Params, d: Deltas, moves: seq<Move>): (k: int)
    ensures -1 <= k < |moves|
    decreases |moves|
  {
    if moves == [] then -1
    else if evaluate(Probe(current, d, moves[|moves| - 1])) > FoldK(evaluate, current, d, moves[..|moves| - 1]).score then |moves| - 1
    else Adopted(evaluate, current, d, moves[..|moves| - 1])
  }

  /**
   * The single-lever search keeps `current` when no probe beats it, or
   * settles on the EARLIEST probe reaching the best score, which strictly
   * beats `current`.
   */
  lemma {:induction false} FoldKEarliest(evaluate: Params -> real, current: Params, d: Deltas, moves: seq<Move>)
    ensures var c := FoldK(evaluate, current, d, moves);
      var k := Adopted(evaluate, current, d, moves);
      && (k == -1 ==> c.p == current)
      && (k >= 0 ==>
            && c.p == Probe(current, d, moves[k])
            && c.score > evaluate(current)
            && forall j :: 0 <= j < k ==> evaluate(Probe(current, d, moves[j])) < c.score)
  {
    if moves != [] {
      var front := moves[..|moves| - 1];
      var last := moves[|moves| - 1];
      var prev := FoldK(evaluate, current, d, front);
      FoldKEarliest(evaluate, current, d, front);
      FoldKScore(evaluate, current, d, front);
      TryUpdateKeeps(evaluate, prev, Apply(last, d, current));
      if evaluate(Probe(current, d, last)) > prev.score {
        forall j | 0 <= j < |moves| - 1
          ensures evaluate(Probe(current, d, moves[j])) <= prev.score
        {
          FoldKBeatsProbe(evaluate, current, d, front, j, moves[j]);
        }
      } else {
        var k := Adopted(evaluate, current, d, front);
        assert forall j :: 0 <= j <= k ==> front[j] == moves[j];
      }
    }
  }

  /** The pair probe: b applied to the clamped a-probe, clamped again. */
  function PairProbe(current: Params, d: Deltas, a: Move, b: Move): (q: Params)
    ensures InRange(q)
  {
    ClampParams(Apply(b, d, ClampParams(Apply(a, d, current))))
  }

  /** How much the joint move gains beyond the sum of the two single moves' gains. */
  function PairSynergy(evaluate: Params -> real, current: Params, d: Deltas, a: Move, b: Move): real
  {
    var s0 := evaluate(current);
    var sa := evaluate(ClampParams(Apply(a, d, current)));
    var sb := evaluate(ClampParams(Apply(b, d, current)));
    var sab := evaluate(PairProbe(current, d, a, b));
    (sab - s0) - ((sa - s0) + (sb - s0))
  }

  /** A choice with its score, as `suggest_step_KH` threads it. */
  datatype Choice = Choice(p: Params, score: real, mode: string)

  /** `try_pair`: adopt the pair probe when synergy is positive and it beats the best strictly. */
  function TryPair(evaluate: Params -> real, current: Params, d: Deltas, best: Choice, a: Move, b: Move): Choice
  {
    var pab := PairProbe(current, d, a, b);
    var sab := evaluate(pab);
    if PairSynergy(evaluate, current, d, a, b) > 0.0 && sab > best.score then Choice(pab, sab, "K+H") else best
  }

  /** The choice after trying `pairs` in order, starting from the choice `start`. */
  function PairsFrom(evaluate: Params -> real, current: Params, d: Deltas, start: Choice, pairs: seq<(Move, Move)>): Choice
    decreases |pairs|
  {
    if pairs == [] then start
    else
      var last := pairs[|pairs| - 1];
      TryPair(evaluate, current, d, PairsFrom(evaluate, current, d, start, pairs[..|pairs| - 1]), last.0, last.1)
  }

  /** The K suggestion as a choice of mode "K". */
  function KChoice(evaluate: Params -> real, current: Params, d: Deltas): Choice
  {
    var k := KBest(evaluate, current, d).p;
    Choice(k, evaluate(k), "K")
  }

  /** The choice after trying `pairs` in order, starting from the K suggestion. */
  function FoldKH(evaluate: Params -> real, current: Params, d: Deltas, pairs: seq<(Move, Move)>): Choice
  {
    PairsFrom(evaluate, current, d, KChoice(evaluate, current, d), pairs)
  }

  /**
   * One `try_pair` never loses score, leaves the score at least that of a
   * pair probe of positive synergy, and either keeps the choice or adopts
   * that pair probe with mode "K+H".
   */
  lemma TryPairKeeps(evaluate: Params -> real, current: Params, d: Deltas, best: Choice, a: Move, b: Move)
    ensures var c := TryPair(evaluate, current, d, best, a, b);
      && c.score >= best.score
      && (PairSynergy(evaluate, current, d, a, b) > 0.0 ==> c.score >= evaluate(PairProbe(current, d, a, b)))
      && (c == best || (c.p == PairProbe(current, d, a, b) && PairSynergy(evaluate, current, d, a, b) > 0.0 && c.mode == "K+H"))
  {
  }

  /** One `try_pair` never lowers the score of the choice. */
  lemma TryPairNoLoss(evaluate: Params -> real, current: Params, d: Deltas, best: Choice, a: Move, b: Move)
    ensures TryPair(evaluate, current, d, best, a, b).score >= best.score
  {
  }

  /** Trying a non-empty list of pairs is one `try_pair` of its last pair after the others. */
  lemma PairsLast(evaluate: Params -> real, current: Params, d: Deltas, start: Choice, pairs: seq<(Move, Move)>)
    requires pairs != []
    ensures var last := pairs[|pairs| - 1];
      PairsFrom(evaluate, current, d, start, pairs)
        == TryPair(evaluate, current, d, PairsFrom(evaluate, current, d, start, pairs[..|pairs| - 1]), last.0, last.1)
  {
  }

  /**
   * The paired search carries its own score and never loses score against the
   * K suggestion; it keeps that suggestion with mode "K", or has mode "K+H"
   * and beats it strictly.
   */
  lemma {:induction false} FoldKHScore(evaluate: Params -> real, current: Params, d: Deltas, pairs: seq<(Move, Move)>)
    ensures var c := FoldKH(evaluate, current, d, pairs);
      var k := KBest(evaluate, current, d).p;
      && c.score == evaluate(c.p)
      && c.score >= evaluate(k)
      && (c.mode == "K" || c.mode == "K+H")
      && (c.mode == "K" ==> c.p == k)
      && (c.mode == "K+H" ==> c.score > evaluate(k))
  {
    if pairs != [] {
      var front := pairs[..|pairs| - 1];
      var last := pairs[|pairs| - 1];
      FoldKHScore(evaluate, current, d, front);
      PairsLast(evaluate, current, d, KChoice(evaluate, current, d), pairs);
      TryPairKeeps(evaluate, current, d, FoldKH(evaluate, current, d, front), last.0, last.1);
    }
  }

  /** A choice other than the start is the pair probe of one of the tried pairs, and that pair has positive synergy. */
  lemma {:induction false} PairsAdopted(evaluate: Params -> real, current: Params, d: Deltas, start: Choice, pairs: seq<(Move, Move)>)
    ensures var c := PairsFrom(evaluate, current, d, start, pairs);
      c != start ==>
        exists i :: (0 <= i < |pairs|
          && c.p == PairProbe(current, d, pairs[i].0, pairs[i].1)
          && PairSynergy(evaluate, current, d, pairs[i].0, pairs[i].1) > 0.0)
  {
    if pairs != [] {
      var front := pairs[..|pairs| - 1];
      PairsAdopted(evaluate, current, d, start, front);
      var prev := PairsFrom(evaluate, current, d, start, front);
      var c := PairsFrom(evaluate, current, d, start, pairs);
      var last := pairs[|pairs| - 1];
      PairsLast(evaluate, current, d, start, pairs);
      TryPairKeeps(evaluate, current, d, prev, last.0, last.1);
      if c != prev {
        assert c.p == PairProbe(current, d, pairs[|pairs| - 1].0, pairs[|pairs| - 1].1);
      } else if c != start {
        var i :| 0 <= i < |front| && c.p == PairProbe(current, d, front[i].0, front[i].1)
               && PairSynergy(evaluate, current, d, front[i].0, front[i].1) > 0.0;
        assert front[i] == pairs[i];
      }
    }
  }

  /** After the pairs, the choice scores at least as well as any tried pair probe (the `i`-th pair) of positive synergy. */
  lemma {:induction false} PairsBeat(evaluate: Params -> real, current: Params, d: Deltas, start: Choice, pairs: seq<(Move, Move)>, i: nat, a: Move, b: Move)
    requires i < |pairs| && pairs[i] == (a, b)
    requires PairSynergy(evaluate, current, d, a, b) > 0.0
    ensures PairsFrom(evaluate, current, d, start, pairs).score >= evaluate(PairProbe(current, d, a, b))
    decreases |pairs|
  {
    var front := pairs[..|pairs| - 1];
    var last := pairs[|pairs| - 1];
    var prev := PairsFrom(evaluate, current, d, start, front);
    PairsLast(evaluate, current, d, start, pairs);
    if i < |front| {
      assert front[i] == pairs[i];
      PairsBeat(evaluate, current, d, start, front, i, a, b);
      TryPairNoLoss(evaluate, current, d, prev, last.0, last.1);
    } else {
      assert i == |pairs| - 1;
      assert last == (a, b);
      TryPairKeeps(evaluate, current, d, prev, a, b);
    }
  }

  /** The `try_update` closure, which replaces the captured best candidate. */
  method Try(evaluate: Params -> real, best: Cand, p: Params) returns (next: Cand)
    ensures next == TryUpdate(evaluate, best, p)
    ensures next.score >= best.score
  {
    var q := ClampParams(p);
    var s := evaluate(q);
    next := best;
    if s > best.score {
      next := Cand(q, s);
    }
  }

  /** The probe order is the ten levers appended one at a time, as `suggest_step_K` probes them. */
  lemma ProbeOrderAppended()
    ensures [] + [ScaleUp] + [ScaleDown] + [SppUp] + [SppDown] + [GammaUp] + [GammaDown] + [NsUp] + [NsDown] + [RampUp] + [RampDown]
         == ProbeOrder
  {
  }

  /**
   * One probe of `suggest_step_K`: `current` with lever `m` moved, handed to
   * `try_update`. The best candidate goes from the search over the moves
   * probed so far to the search over those and `m`.
   */
  method ProbeLever(evaluate: Params -> real, current: Params, d: Deltas, ghost probed: seq<Move>, m: Move, best: Cand)
    returns (next: Cand)
    requires best == FoldK(evaluate, current, d, probed)
    ensures next == FoldK(evaluate, current, d, probed + [m])
  {
    FoldKSnoc(evaluate, current, d, probed, m);
    next := Try(evaluate, best, Apply(m, d, current));
  }

  /** `suggest_step_K`: the ten single-lever probes, in order, then mode "K". */
  method SuggestStepK(current: Params, evaluate: Params -> real, d: Deltas) returns (s: Suggestion)
    ensures s == Suggestion(KBest(evaluate, current, d).p, "K")
  {
    var base := evaluate(current);
    var best := Cand(current, base);
    ghost var probed: seq<Move> := [];
    best := ProbeLever(evaluate, current, d, probed, ScaleUp, best);
    probed := probed + [ScaleUp];
    best := ProbeLever(evaluate, current, d, probed, ScaleDown, best);
    probed := probed + [ScaleDown];
    best := ProbeLever(evaluate, current, d, probed, SppUp, best);
    probed := probed + [SppUp];
    best := ProbeLever(evaluate, current, d, probed, SppDown, best);
    probed := probed + [SppDown];
    best := ProbeLever(evaluate, current, d, probed, GammaUp, best);
    probed := probed + [GammaUp];
    best := ProbeLever(evaluate, current, d, probed, GammaDown, best);
    probed := probed + [GammaDown];
    best := ProbeLever(evaluate, current, d, probed, NsUp, best);
    probed := probed + [NsUp];
    best := ProbeLever(evaluate, current, d, probed, NsDown, best);
    probed := probed + [NsDown];
    best := ProbeLever(evaluate, current, d, probed, RampUp, best);
    probed := probed + [RampUp];
    best := ProbeLever(evaluate, current, d, probed, RampDown, best);
    probed := probed + [RampDown];
    ProbeOrderAppended();
    return Suggestion(best.p, "K");
  }

  /** Trying one more pair is one more `try_pair` on the choice so far. */
  lemma FoldKHSnoc(evaluate: Params -> real, current: Params, d: Deltas, pairs: seq<(Move, Move)>, a: Move, b: Move)
    ensures FoldKH(evaluate, current, d, pairs + [(a, b)]) == TryPair(evaluate, current, d, FoldKH(evaluate, current, d, pairs), a, b)
  {
    assert (pairs + [(a, b)])[..|pairs|] == pairs;
  }

  /** The pair order is the three pairs appended one at a time, as `suggest_step_KH` tries them. */
  lemma PairOrderAppended()
    ensures [] + [(ScaleUp, SppUp)] + [(GammaUp, NsUp)] + [(ScaleDown, GammaUp)] == PairOrder
  {
  }

  /** `suggest_step_KH`: the K suggestion, then the three pairs in order. */
  method SuggestStepKH(current: Params, evaluate: Params -> real, d: Deltas) returns (s: Suggestion)
    ensures var c := FoldKH(evaluate, current, d, PairOrder);
      s == Suggestion(c.p, c.mode)
  {
    var bestK := SuggestStepK(current, evaluate, d);
    var bestScore := evaluate(bestK.next);
    var best := Choice(bestK.next, bestScore, bestK.mode);
    ghost var tried: seq<(Move, Move)> := [];
    FoldKHSnoc(evaluate, current, d, tried, ScaleUp, SppUp);
    best := TryPair(evaluate, current, d, best, ScaleUp, SppUp);
    tried := tried + [(ScaleUp, SppUp)];
    FoldKHSnoc(evaluate, current, d, tried, GammaUp, NsUp);
    best := TryPair(evaluate, current, d, best, GammaUp, NsUp);
    tried := tried + [(GammaUp, NsUp)];
    FoldKHSnoc(evaluate, current, d, tried, ScaleDown, GammaUp);
    best := TryPair(evaluate, current, d, best, ScaleDown, GammaUp);
    tried := tried + [(ScaleDown, GammaUp)];
    PairOrderAppended();
    return Suggestion(best.p, best.mode);
  }

  /** `suggest_step`: the paired search iff `useH`, each with the default deltas. */
  method SuggestStep(current: Params, evaluate: Params -> real, useH: bool) returns (s: Suggestion)
    ensures useH ==> s == Suggestion(FoldKH(evaluate, current, DefaultDeltas, PairOrder).p, FoldKH(evaluate, current, DefaultDeltas, PairOrder).mode)
    ensures !useH ==> s == Suggestion(KBest(evaluate, current, DefaultDeltas).p, "K")
  {
    if useH {
      s := SuggestStepKH(current, evaluate, DefaultDeltas);
    } else {
      s := SuggestStepK(current, evaluate, DefaultDeltas);
    }
  }
}
