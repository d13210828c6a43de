/** Walk-forward GARCH(1,1) volatility: grid fit, conditional variance, rolled forecasts.
    `ln` and `root` stand for the natural logarithm and the square root. */
module Garch {
  import opened Common

  const FLOOR := 0.000000000001
  const IMPOSSIBLE := 1000000000000000000.0

  datatype Params = Params(omega: real, alpha: real, beta: real, variance: real)

  // ----- likelihood -----

  function Roll(omega: real, alpha: real, beta: real, sigma2: real, residual: real): real {
    omega + Times(alpha, Times(residual, residual)) + Times(beta, sigma2)
  }

  function Admissible(alpha: real, beta: real): bool {
    alpha >= 0.0 && beta >= 0.0 && alpha + beta < 0.999
  }

  function Omega(variance: real, persist: real): real { Max(Times(variance, 1.0 - persist), FLOOR) }

  /** One observation's squared residual in units of its variance. */
  function Surprise(residual: real, sigma2: Positive): real { residual * residual / sigma2 }

  function Accumulate(ln: real -> real, omega: real, alpha: real, beta: real, sigma2: real, total: real,
                      rs: seq<real>): real
    decreases |rs|
  {
    if rs == [] then total
    else
      var s := Max(sigma2, FLOOR);
      Accumulate(ln, omega, alpha, beta, Roll(omega, alpha, beta, s, rs[0]),
                 total + ln(s) + Surprise(rs[0], s), rs[1..])
  }

  lemma AccumulateStep(ln: real -> real, omega: real, alpha: real, beta: real, sigma2: real, total: real, rs: seq<real>,
                       i: nat)
    requires i < |rs|
    ensures var s := Max(sigma2, FLOOR);
            Accumulate(ln, omega, alpha, beta, sigma2, total, rs[i..]) ==
            Accumulate(ln, omega, alpha, beta, Roll(omega, alpha, beta, s, rs[i]), total + ln(s) + Surprise(rs[i], s),
                       rs[i + 1..])
  {
    assert rs[i..][0] == rs[i] && rs[i..][1..] == rs[i + 1..];
  }

  /** Twice the negative Gaussian log-likelihood with the variance targeted; a sentinel outside the region. */
  function Score(ln: real -> real, rs: seq<real>, variance: real, alpha: real, beta: real): real {
    if !Admissible(alpha, beta) then IMPOSSIBLE
    else Accumulate(ln, Omega(variance, alpha + beta), alpha, beta, Max(variance, FLOOR), 0.0, rs)
  }

  method NegLogLik(ln: real -> real, rs: seq<real>, variance: real, alpha: real, beta: real) returns (score: real)
    ensures score == Score(ln, rs, variance, alpha, beta)
  {
    if alpha < 0.0 || beta < 0.0 || alpha + beta >= 0.999 {
      return IMPOSSIBLE;
    }
    var omega := Omega(variance, alpha + beta);
    var sigma2, total := Max(variance, FLOOR), 0.0;
    var i := 0;
    while i < |rs|
      invariant 0 <= i <= |rs|
      invariant Accumulate(ln, omega, alpha, beta, sigma2, total, rs[i..]) == Score(ln, rs, variance, alpha, beta)
    {
      AccumulateStep(ln, omega, alpha, beta, sigma2, total, rs, i);
      sigma2 := Max(sigma2, FLOOR);
      total := total + ln(sigma2) + Surprise(rs[i], sigma2);
      sigma2 := Roll(omega, alpha, beta, sigma2, rs[i]);
      i := i + 1;
    }
    return total;
  }

  // ----- fit -----

  /** The search: grid axes, local moves in units of the step, first step, rounds, starting point. */
  datatype Search = Search(
    alphas: seq<real>, betas: seq<real>, moves: seq<(real, real)>, step: real, rounds: nat, alpha: real, beta: real)

  /** The search the system runs. */
  const STANDARD := Search(
    [0.02, 0.04, 0.06, 0.08, 0.10, 0.15, 0.20], [0.70, 0.80, 0.85, 0.90, 0.94, 0.97],
    [(1.0, 0.0), (-1.0, 0.0), (0.0, 1.0), (0.0, -1.0), (1.0, 1.0), (-1.0, -1.0)], 0.02, 8, 0.05, 0.90)

  /** The best point so far and its score. */
  datatype Best = Best(score: real, alpha: real, beta: real)

  function Try(ln: real -> real, rs: seq<real>, variance: real, best: Best, alpha: real, beta: real): Best {
    var score := Score(ln, rs, variance, alpha, beta);
    if score < best.score then Best(score, alpha, beta) else best
  }

  /** In the admissible region, and scoring what it says unless nothing has beaten the sentinel. */
  ghost predicate Fits(ln: real -> real, rs: seq<real>, variance: real, b: Best) {
    && Admissible(b.alpha, b.beta) && b.score <= IMPOSSIBLE
    && (b.score < IMPOSSIBLE ==> b.score == Score(ln, rs, variance, b.alpha, b.beta))
  }

  lemma TryFits(ln: real -> real, rs: seq<real>, variance: real, b: Best, alpha: real, beta: real)
    requires Fits(ln, rs, variance, b)
    ensures var b' := Try(ln, rs, variance, b, alpha, beta);
            && Fits(ln, rs, variance, b') && b'.score <= b.score && b'.score <= Score(ln, rs, variance, alpha, beta)
  {
  }

  function Mean(rs: seq<real>): real
    requires rs != []
  {
    SumOf(rs) / (|rs| as real)
  }

  function SumOf(rs: seq<real>): real { if rs == [] then 0.0 else SumOf(rs[..|rs| - 1]) + rs[|rs| - 1] }

  function SumSquares(rs: seq<real>, mean: real): real {
    if rs == [] then 0.0 else SumSquares(rs[..|rs| - 1], mean) + (rs[|rs| - 1] - mean) * (rs[|rs| - 1] - mean)
  }

  function SampleVariance(rs: seq<real>): real
    requires |rs| >= 2
  {
    SumSquares(rs, Mean(rs)) / ((|rs| - 1) as real)
  }

  function RowBest(ln: real -> real, rs: seq<real>, variance: real, best: Best, alpha: real, betas: seq<real>): Best
    decreases |betas|
  {
    if betas == [] then best
    else RowBest(ln, rs, variance,
                 if alpha + betas[0] >= 0.999 then best else Try(ln, rs, variance, best, alpha, betas[0]),
                 alpha, betas[1..])
  }

  function GridBest(ln: real -> real, rs: seq<real>, variance: real, best: Best, alphas: seq<real>,
                    betas: seq<real>): Best
    decreases |alphas|
  {
    if alphas == [] then best
    else GridBest(ln, rs, variance, RowBest(ln, rs, variance, best, alphas[0], betas), alphas[1..], betas)
  }

  function Move(best: Best, move: (real, real), step: real): (real, real) {
    (best.alpha + Times(move.0, step), best.beta + Times(move.1, step))
  }

  function RoundBest(ln: real -> real, rs: seq<real>, variance: real, best: Best, step: real,
                     moves: seq<(real, real)>): Best
    decreases |moves|
  {
    if moves == [] then best
    else
      var (alpha, beta) := Move(best, moves[0], step);
      RoundBest(ln, rs, variance, Try(ln, rs, variance, best, alpha, beta), step, moves[1..])
  }

  function NextStep(step: real, improved: bool): real { if improved then step else step * 0.5 }

  /** Rounds of local moves; the step halves after a round that improves nothing. */
  function Refined(ln: real -> real, rs: seq<real>, variance: real, best: Best, step: real, moves: seq<(real, real)>,
                   rounds: nat): Best
    decreases rounds
  {
    if rounds == 0 then best
    else
      var b := RoundBest(ln, rs, variance, best, step, moves);
      Refined(ln, rs, variance, b, NextStep(step, b.score < best.score), moves, rounds - 1)
  }

  function Start(g: Search): Best { Best(IMPOSSIBLE, g.alpha, g.beta) }

  function FitBest(ln: real -> real, g: Search, rs: seq<real>, variance: real): Best {
    Refined(ln, rs, variance, GridBest(ln, rs, variance, Start(g), g.alphas, g.betas), g.step, g.moves, g.rounds)
  }

  function Fit(ln: real -> real, g: Search, rs: seq<real>): Params
    requires |rs| >= 20
  {
    var variance := Max(SampleVariance(rs), FLOOR);
    var best := FitBest(ln, g, rs, variance);
    Params(Omega(variance, Min(best.alpha + best.beta, 0.998)), best.alpha, best.beta, variance)
  }

  lemma {:induction false} RowFits(ln: real -> real, rs: seq<real>, variance: real, best: Best, alpha: real,
                                   betas: seq<real>)
    requires Fits(ln, rs, variance, best)
    ensures var b := RowBest(ln, rs, variance, best, alpha, betas);
            && Fits(ln, rs, variance, b) && b.score <= best.score
            && forall beta :: beta in betas && alpha + beta < 0.999 ==> b.score <= Score(ln, rs, variance, alpha, beta)
    decreases |betas|
  {
    if betas != [] {
      TryFits(ln, rs, variance, best, alpha, betas[0]);
      RowFits(ln, rs, variance,
              if alpha + betas[0] >= 0.999 then best else Try(ln, rs, variance, best, alpha, betas[0]),
                 alpha, betas[1..]);
      assert forall beta :: beta in betas ==> beta == betas[0] || beta in betas[1..];
    }
  }

  lemma {:induction false} GridFits(ln: real -> real, rs: seq<real>, variance: real, best: Best, alphas: seq<real>,
                                    betas: seq<real>)
    requires Fits(ln, rs, variance, best)
    ensures var b := GridBest(ln, rs, variance, best, alphas, betas);
            && Fits(ln, rs, variance, b) && b.score <= best.score
            && forall alpha, beta :: alpha in alphas && beta in betas && alpha + beta < 0.999 ==>
                 b.score <= Score(ln, rs, variance, alpha, beta)
    decreases |alphas|
  {
    if alphas != [] {
      RowFits(ln, rs, variance, best, alphas[0], betas);
      GridFits(ln, rs, variance, RowBest(ln, rs, variance, best, alphas[0], betas), alphas[1..], betas);
      assert forall alpha :: alpha in alphas ==> alpha == alphas[0] || alpha in alphas[1..];
    }
  }

  lemma {:induction false} RoundFits(ln: real -> real, rs: seq<real>, variance: real, best: Best, step: real,
                                     moves: seq<(real, real)>)
    requires Fits(ln, rs, variance, best)
    ensures var b := RoundBest(ln, rs, variance, best, step, moves); Fits(ln, rs, variance, b) && b.score <= best.score
    decreases |moves|
  {
    if moves != [] {
      var (alpha, beta) := Move(best, moves[0], step);
      TryFits(ln, rs, variance, best, alpha, beta);
      RoundFits(ln, rs, variance, Try(ln, rs, variance, best, alpha, beta), step, moves[1..]);
    }
  }

  lemma {:induction false} RefinedFits(ln: real -> real, rs: seq<real>, variance: real, best: Best, step: real,
                                       moves: seq<(real, real)>, rounds: nat)
    requires Fits(ln, rs, variance, best)
    ensures var b := Refined(ln, rs, variance, best, step, moves, rounds);
            Fits(ln, rs, variance, b) && b.score <= best.score
    decreases rounds
  {
    if rounds > 0 {
      RoundFits(ln, rs, variance, best, step, moves);
      var b := RoundBest(ln, rs, variance, best, step, moves);
      RefinedFits(ln, rs, variance, b, NextStep(step, b.score < best.score), moves, rounds - 1);
    }
  }

  /** What every fit satisfies. */
  ghost predicate ParamsOk(p: Params) {
    Admissible(p.alpha, p.beta) && p.omega >= FLOOR && p.variance >= FLOOR
  }

  ghost predicate OnGrid(g: Search, alpha: real, beta: real) {
    alpha in g.alphas && beta in g.betas && alpha + beta < 0.999
  }

  /** Every fit is admissible with its floors in place, and scores no worse than any grid point that
      scores below the sentinel, whatever the logarithm returns. */
  lemma FitIsAdmissibleAndBest(ln: real -> real, g: Search, rs: seq<real>)
    requires |rs| >= 20 && Admissible(g.alpha, g.beta)
    ensures ParamsOk(Fit(ln, g, rs))
    ensures var p := Fit(ln, g, rs);
            forall a, b :: OnGrid(g, a, b) && Score(ln, rs, p.variance, a, b) < IMPOSSIBLE ==>
              Score(ln, rs, p.variance, p.alpha, p.beta) <= Score(ln, rs, p.variance, a, b)
  {
    var variance := Max(SampleVariance(rs), FLOOR);
    var grid := GridBest(ln, rs, variance, Start(g), g.alphas, g.betas);
    GridFits(ln, rs, variance, Start(g), g.alphas, g.betas);
    RefinedFits(ln, rs, variance, grid, g.step, g.moves, g.rounds);
  }

  /** The search the system runs is one of those: its own fits are admissible and best. */
  lemma StandardFitIsAdmissibleAndBest(ln: real -> real, rs: seq<real>)
    requires |rs| >= 20
    ensures ParamsOk(Fit(ln, STANDARD, rs))
    ensures var p := Fit(ln, STANDARD, rs);
            forall a, b :: OnGrid(STANDARD, a, b) && Score(ln, rs, p.variance, a, b) < IMPOSSIBLE ==>
              Score(ln, rs, p.variance, p.alpha, p.beta) <= Score(ln, rs, p.variance, a, b)
  {
    FitIsAdmissibleAndBest(ln, STANDARD, rs);
  }

  /** The fit's own loops. Fewer than twenty returns are refused. */
  method FitGarch(ln: real -> real, g: Search, rs: seq<real>) returns (p: Option<Params>)
    ensures p == if |rs| < 20 then None else Some(Fit(ln, g, rs))
  {
    if |rs| < 20 {
      return None;
    }
    var variance := Max(SampleVariance(rs), FLOOR);
    var best := GridLoop(ln, g, rs, variance);
    best := RefineLoop(ln, g, rs, variance, best);
    var omega := Omega(variance, Min(best.alpha + best.beta, 0.998));
    return Some(Params(omega, best.alpha, best.beta, variance));
  }

  method GridLoop(ln: real -> real, g: Search, rs: seq<real>, variance: real) returns (best: Best)
    ensures best == GridBest(ln, rs, variance, Start(g), g.alphas, g.betas)
  {
    best := Start(g);
    var i := 0;
    while i < |g.alphas|
      invariant 0 <= i <= |g.alphas|
      invariant GridBest(ln, rs, variance, best, g.alphas[i..], g.betas) ==
          GridBest(ln, rs, variance, Start(g), g.alphas, g.betas)
    {
      ghost var row := best;
      var alpha := g.alphas[i];
      var j := 0;
      while j < |g.betas|
        invariant 0 <= j <= |g.betas|
        invariant RowBest(ln, rs, variance, best, alpha, g.betas[j..]) == RowBest(ln, rs, variance, row, alpha, g.betas)
      {
        assert g.betas[j..][1..] == g.betas[j + 1..];
        if alpha + g.betas[j] < 0.999 {
          var score := NegLogLik(ln, rs, variance, alpha, g.betas[j]);
          if score < best.score {
            best := Best(score, alpha, g.betas[j]);
          }
        }
        j := j + 1;
      }
      assert g.alphas[i..][1..] == g.alphas[i + 1..];
      i := i + 1;
    }
  }

  method RefineLoop(ln: real -> real, g: Search, rs: seq<real>, variance: real, start: Best) returns (best: Best)
    ensures best == Refined(ln, rs, variance, start, g.step, g.moves, g.rounds)
  {
    best := start;
    var step, n := g.step, g.rounds;
    while n > 0
      invariant n >= 0
      invariant Refined(ln, rs, variance, best, step, g.moves, n) ==
          Refined(ln, rs, variance, start, g.step, g.moves, g.rounds)
    {
      var improved;
      best, improved := RoundLoop(ln, rs, variance, best, step, g.moves);
      step := NextStep(step, improved);
      n := n - 1;
    }
  }

  method RoundLoop(ln: real -> real, rs: seq<real>, variance: real, start: Best, step: real, moves: seq<(real, real)>)
    returns (best: Best, improved: bool)
    ensures best == RoundBest(ln, rs, variance, start, step, moves)
    ensures improved <==> best.score < start.score
  {
    best, improved := start, false;
    var k := 0;
    while k < |moves|
      invariant 0 <= k <= |moves|
      invariant RoundBest(ln, rs, variance, best, step, moves[k..]) == RoundBest(ln, rs, variance, start, step, moves)
      invariant best.score <= start.score && (improved <==> best.score < start.score)
    {
      assert moves[k..][1..] == moves[k + 1..];
      var (alpha, beta) := Move(best, moves[k], step);
      var score := NegLogLik(ln, rs, variance, alpha, beta);
      if score < best.score {
        best, improved := Best(score, alpha, beta), true;
      }
      k := k + 1;
    }
  }

  // ----- conditional variance -----

  function Next(p: Params, sigma2: real, residual: real): real {
    Max(Roll(p.omega, p.alpha, p.beta, sigma2, residual), FLOOR)
  }

  /** The variance after a history, from scratch. */
  function ConditionalVariance(p: Params, rs: seq<real>): real {
    if rs == [] then Max(p.variance, FLOOR)
    else Next(p, ConditionalVariance(p, rs[..|rs| - 1]), rs[|rs| - 1])
  }

  method ConditionalVarianceLoop(p: Params, rs: seq<real>) returns (sigma2: real)
    ensures sigma2 == ConditionalVariance(p, rs)
  {
    sigma2 := Max(p.variance, FLOOR);
    for i := 0 to |rs|
      invariant sigma2 == ConditionalVariance(p, rs[..i])
    {
      assert rs[..i + 1][..i] == rs[..i];
      sigma2 := Roll(p.omega, p.alpha, p.beta, sigma2, rs[i]);
      sigma2 := Max(sigma2, FLOOR);
    }
    assert rs[..|rs|] == rs;
  }

  /** The variance that residuals of size `r` sustain for ever. */
  function Level(p: Params, r: real): real
    requires p.beta != 1.0
  {
    (p.omega + Times(p.alpha, Times(r, r))) / (1.0 - p.beta)
  }

  lemma LevelHolds(p: Params, r: real)
    requires ParamsOk(p)
    ensures p.omega + Times(p.alpha, Times(r, r)) == Times(1.0 - p.beta, Level(p, r))
  {
  }

  lemma {:induction false} VarianceBelow(p: Params, rs: seq<real>, r: real, bound: real)
    requires ParamsOk(p) && forall i :: 0 <= i < |rs| ==> -r <= rs[i] <= r
    requires p.variance <= bound && p.omega + Times(p.alpha, Times(r, r)) <= Times(1.0 - p.beta, bound)
    ensures FLOOR <= ConditionalVariance(p, rs) <= bound
  {
    if rs != [] {
      var n := |rs| - 1;
      VarianceBelow(p, rs[..n], r, bound);
      NextIsBounded(p, ConditionalVariance(p, rs[..n]), rs[n], r, bound);
    }
  }

  /** With residuals bounded by `r`, the variance of a fitted model stays between the floor and the
      larger of its starting value and the level the bound sustains. */
  lemma VarianceIsBounded(p: Params, rs: seq<real>, r: real)
    requires ParamsOk(p) && forall i :: 0 <= i < |rs| ==> -r <= rs[i] <= r
    ensures FLOOR <= ConditionalVariance(p, rs) <= Max(p.variance, Level(p, r))
  {
    LevelHolds(p, r);
    ProductGrows(1.0 - p.beta, Level(p, r), Max(p.variance, Level(p, r)));
    VarianceBelow(p, rs, r, Max(p.variance, Level(p, r)));
  }

  lemma SquareBound(x: real, r: real)
    requires -r <= x <= r
    ensures Times(x, x) <= Times(r, r)
  {
    assert (r - x) * (r + x) >= 0.0;
    assert (r - x) * (r + x) == r * r - x * x;
  }

  lemma Remainder(beta: real, level: real)
    ensures Times(1.0 - beta, level) + Times(beta, level) == level
  {
  }

  lemma NextIsBounded(p: Params, sigma2: real, x: real, r: real, bound: real)
    requires ParamsOk(p) && -r <= x <= r && sigma2 <= bound && bound >= FLOOR
    requires p.omega + Times(p.alpha, Times(r, r)) <= Times(1.0 - p.beta, bound)
    ensures FLOOR <= Next(p, sigma2, x) <= bound
  {
    SquareBound(x, r);
    ProductGrows(p.alpha, Times(x, x), Times(r, r));
    ProductGrows(p.beta, sigma2, bound);
    Remainder(p.beta, bound);
  }

  // ----- forecasts -----

  datatype Forecast = Forecast(
    variance: real, vol: real, volAnn: real, size: real, regime: string, percentile: Option<real>)

  datatype Sizing = Sizing(periods: real, targetVol: real, minSize: real, maxSize: real)

  predicate CapsOk(z: Sizing) { 0.0 < z.minSize <= z.maxSize }

  /** Target over forecast, clipped; a forecast that is not positive gets the smallest size. */
  function SizeFromVol(volAnn: real, z: Sizing): (size: real)
    ensures CapsOk(z) ==> z.minSize <= size <= z.maxSize
  {
    if volAnn <= 0.0 || z.targetVol <= 0.0 then z.minSize
    else Min(Max(z.targetVol / volAnn, z.minSize), z.maxSize)
  }

  function Regime(percentile: Option<real>): string {
    if percentile.None? then "unknown"
    else if percentile.value < 1.0 / 3.0 then "calm"
    else if percentile.value < 2.0 / 3.0 then "normal"
    else "storm"
  }

  function CountBelow(xs: seq<real>, x: real): nat {
    if xs == [] then 0 else CountBelow(xs[..|xs| - 1], x) + (if xs[|xs| - 1] < x then 1 else 0)
  }

  /** The last `n` values; all of them when `n` is zero, as a negative-zero slice gives. */
  function LastOf(xs: seq<real>, n: nat): seq<real> {
    if n == 0 || n >= |xs| then xs else xs[|xs| - n..]
  }

  function Percentile(prior: seq<real>, lookback: nat, vol: real): Option<real> {
    var window := LastOf(prior, lookback);
    if window == [] then None else Some(CountBelow(window, vol) as real / |window| as real)
  }

  datatype Setup = Setup(search: Search, minTrain: int, refitEvery: int, lookback: nat, sizing: Sizing)
  {
    predicate Valid() { minTrain >= 20 && refitEvery > 0 && sizing.periods > 0.0 }
  }

  function MakeForecast(root: real -> real, sigma2: real, z: Sizing, regime: string,
                        percentile: Option<real>): Forecast {
    var volAnn := Times(root(sigma2), root(z.periods));
    Forecast(sigma2, root(sigma2), volAnn, SizeFromVol(volAnn, z), regime, percentile)
  }

  /** The last index at or before `i` at which the parameters are fitted anew. */
  function LastRefit(u: Setup, i: nat): (r: nat)
    requires u.Valid() && u.minTrain <= i
    ensures u.minTrain <= r <= i
    decreases i
  {
    if IsRefit(u, i) then i else LastRefit(u, i - 1)
  }

  predicate IsRefit(u: Setup, i: nat)
    requires u.Valid() && u.minTrain <= i
    ensures i == u.minTrain ==> IsRefit(u, i)
  {
    (i - u.minTrain) % u.refitEvery == 0
  }

  /** A fitting procedure. What follows about forecasts holds for any; the system's is `FitterOf`. */
  type Fitter = seq<real> -> Params

  function FitterOf(ln: real -> real, g: Search): Fitter {
    (rs: seq<real>) => if |rs| < 20 then NO_PARAMS else Fit(ln, g, rs)
  }

  ghost predicate IsFitter(fit: Fitter, ln: real -> real, g: Search) {
    forall rs: seq<real> {:trigger Fit(ln, g, rs)} :: |rs| >= 20 ==> fit(rs) == Fit(ln, g, rs)
  }

  const NO_PARAMS := Params(0.0, 0.0, 0.0, 0.0)

  /** The forecast variance at `i`, from scratch: fit on the returns before the last refit, run the
      recursion over everything up to and including `i`. */
  function VarianceAt(fit: Fitter, u: Setup, rs: seq<real>, i: nat): real
    requires u.Valid() && u.minTrain <= i < |rs|
  {
    ConditionalVariance(fit(rs[..LastRefit(u, i)]), rs[..i + 1])
  }

  function VolsBefore(fit: Fitter, root: real -> real, u: Setup, rs: seq<real>, i: nat): seq<real>
    requires u.Valid() && u.minTrain <= i <= |rs|
    decreases i
  {
    if i == u.minTrain then [] else VolsBefore(fit, root, u, rs, i - 1) + [root(VarianceAt(fit, u, rs, i - 1))]
  }

  /** The forecast at `i`, from scratch. */
  function ForecastAt(fit: Fitter, root: real -> real, u: Setup, rs: seq<real>, i: nat): Forecast
    requires u.Valid() && u.minTrain <= i < |rs|
  {
    var sigma2 := VarianceAt(fit, u, rs, i);
    var percentile := Percentile(VolsBefore(fit, root, u, rs, i), u.lookback, root(sigma2));
    MakeForecast(root, sigma2, u.sizing, Regime(percentile), percentile)
  }

  /** Every bar's forecast is the one from scratch; before the training window there is none. */
  ghost predicate FromScratch(fit: Fitter, root: real -> real, u: Setup, rs: seq<real>, made: seq<Option<Forecast>>,
                              n: nat)
    requires u.Valid() && n <= |rs|
  {
    |made| == |rs| && forall i :: 0 <= i < |rs| ==>
      made[i] == if u.minTrain <= i < n then Some(ForecastAt(fit, root, u, rs, i)) else None
  }

  lemma OneMore(fit: Fitter, root: real -> real, u: Setup, rs: seq<real>, made: seq<Option<Forecast>>, n: nat)
    requires u.Valid() && u.minTrain <= n < |rs| && FromScratch(fit, root, u, rs, made, n)
    ensures FromScratch(fit, root, u, rs, made[n := Some(ForecastAt(fit, root, u, rs, n))], n + 1)
  {
  }

  /** One roll is one more step of the recursion. */
  lemma RollIsRecursion(p: Params, rs: seq<real>, i: nat)
    requires i < |rs|
    ensures ConditionalVariance(p, rs[..i + 1]) == Next(p, ConditionalVariance(p, rs[..i]), rs[i])
  {
    assert rs[..i + 1][..i] == rs[..i];
  }

  /** Parameters and variance in force after index `i - 1`. */
  ghost predicate InForce(fit: Fitter, u: Setup, rs: seq<real>, i: nat, params: Params, sigma2: real)
    requires u.Valid() && u.minTrain <= i <= |rs|
  {
    i > u.minTrain ==> params == fit(rs[..LastRefit(u, i - 1)]) && sigma2 == VarianceAt(fit, u, rs, i - 1)
  }

  /** One bar: refit when due, then roll the recursion over the bar's return. */
  method RollOrRefit(ln: real -> real, ghost fit: Fitter, u: Setup, rs: seq<real>, index: nat, before: Params,
                     sigma: real)
    returns (params: Params, sigma2: real)
    requires IsFitter(fit, ln, u.search) && u.Valid() && u.minTrain <= index < |rs|
    requires InForce(fit, u, rs, index, before, sigma)
    ensures InForce(fit, u, rs, index + 1, params, sigma2)
  {
    params, sigma2 := before, sigma;
    if IsRefit(u, index) {
      var fitted := FitGarch(ln, u.search, rs[..index]);
      params := fitted.value;
      sigma2 := ConditionalVarianceLoop(params, rs[..index]);
    }
    RollIsRecursion(params, rs, index);
    sigma2 := Max(Roll(params.omega, params.alpha, params.beta, sigma2, rs[index]), FLOOR);
  }

  /** The bar's volatility placed among those before it. */
  method Classified(ghost fit: Fitter, root: real -> real, u: Setup, rs: seq<real>, index: nat,
                    ghost params: Params, sigma2: real, prior: seq<real>)
    returns (vols: seq<real>, forecast: Forecast)
    requires u.Valid() && u.minTrain <= index < |rs| && InForce(fit, u, rs, index + 1, params, sigma2)
    requires prior == VolsBefore(fit, root, u, rs, index)
    ensures vols == VolsBefore(fit, root, u, rs, index + 1)
    ensures forecast == ForecastAt(fit, root, u, rs, index)
  {
    var vol := root(sigma2);
    var percentile := Percentile(prior, u.lookback, vol);
    vols := prior + [vol];
    forecast := MakeForecast(root, sigma2, u.sizing, Regime(percentile), percentile);
  }

  method ForecastLoop(ln: real -> real, root: real -> real, ghost fit: Fitter, u: Setup, rs: seq<real>)
    returns (made: seq<Option<Forecast>>)
    requires IsFitter(fit, ln, u.search) && u.Valid() && u.minTrain < |rs|
    ensures FromScratch(fit, root, u, rs, made, |rs|)
  {
    made := seq(|rs|, _ => None);
    var params := NO_PARAMS;
    var sigma2 := 0.0;
    var prior: seq<real> := [];
    var index := u.minTrain;
    while index < |rs|
      invariant u.minTrain <= index <= |rs| && |made| == |rs|
      invariant prior == VolsBefore(fit, root, u, rs, index)
      invariant InForce(fit, u, rs, index, params, sigma2)
      invariant FromScratch(fit, root, u, rs, made, index)
    {
      params, sigma2 := RollOrRefit(ln, fit, u, rs, index, params, sigma2);
      var forecast;
      prior, forecast := Classified(fit, root, u, rs, index, params, sigma2, prior);
      OneMore(fit, root, u, rs, made, index);
      made := made[index := Some(forecast)];
      index := index + 1;
    }
  }

  /** Rolled forward between refits, every forecast is the one computed from scratch; before the
      training window there is none. Bad parameters are refused, bad size caps once there is a forecast
      to size. */
  method WalkForwardForecasts(ln: real -> real, root: real -> real, u: Setup, rs: seq<real>)
    returns (out: Option<seq<Option<Forecast>>>)
    ensures out.Some? <==> u.Valid() && (|rs| > u.minTrain ==> CapsOk(u.sizing))
    ensures out.Some? ==> FromScratch(FitterOf(ln, u.search), root, u, rs, out.value, |rs|)
  {
    if !u.Valid() {
      return None;
    }
    if |rs| <= u.minTrain {
      return Some(seq(|rs|, _ => None));
    }
    if !CapsOk(u.sizing) {
      return None;
    }
    var made := ForecastLoop(ln, root, FitterOf(ln, u.search), u, rs);
    return Some(made);
  }

  // ----- what the forecasts depend on -----

  lemma VarianceSeesOnlyThePast(fit: Fitter, u: Setup, rs: seq<real>, qs: seq<real>, i: nat)
    requires u.Valid() && u.minTrain <= i < |rs| && i < |qs| && rs[..i + 1] == qs[..i + 1]
    ensures VarianceAt(fit, u, rs, i) == VarianceAt(fit, u, qs, i)
  {
    var r := LastRefit(u, i);
    assert rs[..r] == rs[..i + 1][..r] && qs[..r] == qs[..i + 1][..r];
  }

  lemma {:induction false} VolsSeeOnlyThePast(fit: Fitter, root: real -> real, u: Setup, rs: seq<real>, qs: seq<real>,
                                              i: nat)
    requires u.Valid() && u.minTrain <= i <= |rs| && i <= |qs| && rs[..i] == qs[..i]
    ensures VolsBefore(fit, root, u, rs, i) == VolsBefore(fit, root, u, qs, i)
    decreases i
  {
    if i > u.minTrain {
      assert rs[..i - 1] == rs[..i][..i - 1] && qs[..i - 1] == qs[..i][..i - 1];
      VolsSeeOnlyThePast(fit, root, u, rs, qs, i - 1);
      VarianceSeesOnlyThePast(fit, u, rs, qs, i - 1);
    }
  }

  /** No look-ahead: two return series that agree up to and including `i` have the same forecast
      at `i`, regime and percentile included. */
  lemma ForecastSeesOnlyThePast(fit: Fitter, root: real -> real, u: Setup, rs: seq<real>, qs: seq<real>, i: nat)
    requires u.Valid() && u.minTrain <= i < |rs| && i < |qs| && rs[..i + 1] == qs[..i + 1]
    ensures ForecastAt(fit, root, u, rs, i) == ForecastAt(fit, root, u, qs, i)
  {
    assert rs[..i] == rs[..i + 1][..i] && qs[..i] == qs[..i + 1][..i];
    VarianceSeesOnlyThePast(fit, u, rs, qs, i);
    VolsSeeOnlyThePast(fit, root, u, rs, qs, i);
  }

  /** Fit on all but the last return, then roll the last one. */
  function OneStep(fit: Fitter, root: real -> real, minTrain: int, z: Sizing, rs: seq<real>): Option<Forecast>
    requires minTrain >= 20
  {
    if |rs| < minTrain + 1 then None
    else
      var n := |rs| - 1;
      var p := fit(rs[..n]);
      Some(MakeForecast(root, Next(p, ConditionalVariance(p, rs[..n]), rs[n]), z, "unknown", None))
  }

  /** At a refit index the walk-forward forecast is the one-step forecast of the same history, in
      variance, volatility and size. */
  lemma RefitMatchesOneStep(fit: Fitter, root: real -> real, u: Setup, rs: seq<real>, i: nat)
    requires u.Valid() && u.minTrain <= i < |rs| && IsRefit(u, i)
    ensures var one := OneStep(fit, root, u.minTrain, u.sizing, rs[..i + 1]);
            && one.Some?
            && ForecastAt(fit, root, u, rs, i) ==
               one.value.(regime := ForecastAt(fit, root, u, rs, i).regime,
                          percentile := ForecastAt(fit, root, u, rs, i).percentile)
  {
    assert rs[..i + 1][..i] == rs[..i];
    RollIsRecursion(fit(rs[..i]), rs, i);
  }
}
