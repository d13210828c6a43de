/** Deterministic protective exits on a held position. */
module Exits {
  import opened Common
  import opened Portfolio
  import F = PaperFills

  datatype ExitReason = StopLoss | TrailingStop | TakeProfit | TimeStop | ThesisInvalidated

  datatype ExitSettings = ExitSettings(
    active: bool, stopLossPct: NonNegative, trailingStopPct: NonNegative, takeProfitPct: NonNegative,
    timeStopBars: nat, onThesisInvalidation: bool, slippageBps: real)

  datatype ExitSignal = ExitSignal(reason: ExitReason, requested: Positive)

  /** What the strategy layer says this cycle, when it was consulted: the side it confirms, and
      whether the regime turned against a momentum entry. */
  datatype Thesis = Thesis(confirmedSide: Option<Side>, trendingDown: bool)

  const NO_THESIS := Thesis(None, false)

  /** Lower-case search for the momentum tag of the entry strategy. */
  predicate IsMomentum(entryStrategy: Option<string>) {
    entryStrategy.Some? &&
    exists i {:trigger entryStrategy.value[i..]} ::
      0 <= i <= |entryStrategy.value| && "MOMENTUM" <= Upper(entryStrategy.value[i..])
  }

  /** The worst price the exit can fill at; a haircut of all of it falls back to the mark. */
  function SizingPrice(c: ExitSettings, mark: Positive): (p: Positive)
    ensures p <= mark
  {
    var slippage := Max(0.0, c.slippageBps);
    HaircutBounds(mark, slippage);
    var price := F.AdverseFillPrice(Sell, mark, slippage);
    if price <= 0.0 then mark else price
  }

  lemma HaircutBounds(mark: Positive, slippageBps: NonNegative)
    ensures F.AdverseFillPrice(Sell, mark, slippageBps) <= mark
    ensures slippageBps < 10000.0 ==> F.AdverseFillPrice(Sell, mark, slippageBps) > 0.0
  {
    var k := slippageBps / 10000.0;
    if k < 1.0 {
      ProductPositive(mark, 1.0 - k);
    }
    if k > 0.0 {
      ProductPositive(mark, k);
    }
    assert mark * (1.0 - k) == mark - mark * k;
  }

  /** A held position is long, so every rule is its selling form. */
  function FirstFired(c: ExitSettings, p: Held, mark: Positive, now: real, barSeconds: real,
                      t: Thesis): Option<ExitReason> {
    var entry := p.averageCost;
    var highWater := Max(Max(p.highWater, entry), mark);
    if c.stopLossPct > 0.0 && mark <= entry * (1.0 - c.stopLossPct) then Some(StopLoss)
    else if c.trailingStopPct > 0.0 && highWater > entry && mark <= highWater * (1.0 - c.trailingStopPct) then
      Some(TrailingStop)
    else if c.takeProfitPct > 0.0 && mark >= entry * (1.0 + c.takeProfitPct) then Some(TakeProfit)
    else if c.timeStopBars > 0 && p.openedAt.Some? && barSeconds > 0.0
            && now - p.openedAt.value >= c.timeStopBars as real * barSeconds then Some(TimeStop)
    else if c.onThesisInvalidation
            && (t.confirmedSide == Some(Sell) || (t.trendingDown && IsMomentum(p.entryStrategy))) then
      Some(ThesisInvalidated)
    else None
  }

  function EvaluateExits(c: ExitSettings, p: Held, mark: real, now: real, barSeconds: real,
                         t: Thesis): Option<ExitSignal> {
    if !c.active || mark <= 0.0 || p.quantity <= 0.0 || p.averageCost <= 0.0 then None
    else
      var reason := FirstFired(c, p, mark, now, barSeconds, t);
      if reason.None? then None
      else
        ProductPositive(p.quantity, SizingPrice(c, mark));
        Some(ExitSignal(reason.value, p.quantity * SizingPrice(c, mark)))
  }

  function StrategyIdFor(reason: ExitReason): string {
    match reason
    case StopLoss => "exit-stop_loss"
    case TrailingStop => "exit-trailing_stop"
    case TakeProfit => "exit-take_profit"
    case TimeStop => "exit-time_stop"
    case ThesisInvalidated => "exit-thesis_invalidated"
  }

  /** Sized at the worst-case price, an exit's notional converts at the adverse fill price into no
      more than is held exactly when the mark it was sized at is not above the fill's mid. */
  lemma ExitConvertsToHeldExactlyWhen(c: ExitSettings, quantity: Positive, mark: Positive, mid: Positive)
    requires 0.0 <= c.slippageBps < 10000.0
    ensures var fill := F.AdverseFillPrice(Sell, mid, c.slippageBps);
            fill > 0.0 && (quantity * SizingPrice(c, mark) / fill <= quantity <==> mark <= mid)
  {
    HaircutBounds(mark, c.slippageBps);
    HaircutBounds(mid, c.slippageBps);
    var k := 1.0 - c.slippageBps / 10000.0;
    Cancel(quantity, mark, mid, k, SizingPrice(c, mark), F.AdverseFillPrice(Sell, mid, c.slippageBps));
  }

  lemma Cancel(quantity: real, mark: real, mid: real, k: real, sized: real, fill: real)
    requires quantity > 0.0 && mark > 0.0 && mid > 0.0 && k > 0.0
    requires sized == mark * k && fill == mid * k && fill > 0.0
    ensures quantity * sized / fill <= quantity <==> mark <= mid
  {
    var q := quantity * sized / fill;
    assert q * fill == quantity * sized;
    assert (q * mid) * k == q * fill && (quantity * mark) * k == quantity * sized;
    CancelScaled(q * mid, quantity * mark, k);
    CancelOrder(q, quantity, mark, mid);
  }

  lemma CancelScaled(a: real, b: real, k: real)
    requires k > 0.0 && a * k == b * k
    ensures a == b
  {
  }

  lemma CancelOrder(q: real, quantity: real, mark: real, mid: real)
    requires quantity > 0.0 && mark > 0.0 && mid > 0.0 && q * mid == quantity * mark
    ensures q <= quantity <==> mark <= mid
  {
    if mark <= mid {
      assert quantity * mark <= quantity * mid;
    } else {
      assert quantity * mark > quantity * mid;
    }
  }
}

/** One cycle's decision: market-data validation, protective exits, withhold-only gates, entry,
    and the bounded meta-agent review. */
module Pipeline {
  import opened Common
  import opened Dictionary
  import opened Portfolio
  import opened Planning
  import opened Risk
  import opened Exits

  datatype Tick = Tick(symbol: string, observedAt: real, spreadBps: real, last: Positive)

  datatype Reference = Reference(asset: string, currency: string, fromPrimaryVenue: bool, price: Positive)

  /** External intelligence as merged into the feature vector. */
  datatype Intelligence = Intelligence(
    asset: string, providerUnavailable: bool, isEmpty: bool, adverseEvent: bool, regimePercentile: Option<real>)

  datatype PreTradeCheck = PreTradeCheck(
    passed: bool, confirmedSide: Option<Side>, confidence: real, trendingDown: bool, reasons: seq<string>)

  /** The gates and thresholds of the pipeline itself; `universe` is the promoted set when one is pinned. */
  datatype Config = Config(
    maxTickAgeSeconds: real, maxSpreadBps: real, maxDivergenceBps: real, notionalPct: Positive,
    universe: Option<set<string>>, requireIntelligence: bool, blockOnAdverseNews: bool,
    onchainGate: bool, onchainMaxPercentile: real, pretradeGate: bool, exits: ExitSettings)

  /** What a cycle is given. `built` is what the feature builder returned, when it ran; `check` is
      what the pre-trade gate answers if asked. */
  datatype Inputs = Inputs(
    tick: Tick, references: seq<Reference>, snapshot: Snapshot, hasCandles: bool, built: Option<(real, Option<real>)>,
    intelligence: Option<Intelligence>, check: PreTradeCheck, decisionId: string,
    now: real, entryNow: real, barSeconds: real)

  datatype Result = Result(
    accepted: bool, reasons: seq<string>, proposal: Option<Proposal>, risk: Option<RiskResult>,
    order: Option<Intent>, exitReason: Option<ExitReason>)

  const ENTRY_STRATEGY := "vertical-slice-v1"

  function BaseAsset(symbol: string): string {
    Upper(BeforeSlash(symbol))
  }

  function BeforeSlash(symbol: string): string {
    if symbol == [] || symbol[0] == '/' then [] else [symbol[0]] + BeforeSlash(symbol[1..])
  }

  // ----- market data -----

  function Eligible(rs: seq<Reference>, asset: string): seq<Reference> {
    if rs == [] then []
    else (if Upper(rs[0].asset) == asset && rs[0].currency == "USD" then [rs[0]] else []) + Eligible(rs[1..], asset)
  }

  predicate Consistent(last: Positive, rs: seq<Reference>, maxBps: real) {
    && (exists i :: 0 <= i < |rs| && !rs[i].fromPrimaryVenue)
    && (forall i :: 0 <= i < |rs| && !rs[i].fromPrimaryVenue ==> Abs(last - rs[i].price) / last * 10000.0 <= maxBps)
  }

  function MarketReasons(g: Config, x: Inputs): seq<string> {
    var rs := Eligible(x.references, BaseAsset(x.tick.symbol));
    (if Max(0.0, x.now - x.tick.observedAt) > g.maxTickAgeSeconds then ["stale_primary_tick"] else [])
    + (if x.tick.spreadBps > g.maxSpreadBps then ["spread_limit_exceeded"] else [])
    + (if rs == [] then ["no_independent_reference_price"]
       else if !Consistent(x.tick.last, rs, g.maxDivergenceBps) then ["reference_price_divergence"] else [])
  }

  // ----- features -----

  function Intel(x: Inputs): Option<Intelligence> {
    if x.intelligence.Some? && Upper(x.intelligence.value.asset) == BaseAsset(x.tick.symbol) then x.intelligence
        else None
  }

  function FeaturesOf(x: Inputs): Features {
    if x.hasCandles && x.built.Some? then Features(x.tick.spreadBps, x.built.value.0, x.built.value.1)
    else Features(x.tick.spreadBps, 0.0, None)
  }

  // ----- orders -----

  /** The exit path: the first fired rule becomes a reduce-only sell, judged by the risk engine. */
  function ExitResult(g: Config, c: Settings, halted: bool, tripped: bool, x: Inputs, t: Thesis): Option<Result> {
    var asset := BaseAsset(x.tick.symbol);
    var held := Get(x.snapshot.held, asset);
    if held.None? then None
    else
      var signal := EvaluateExits(g.exits, held.value, x.tick.last, x.now, x.barSeconds, t);
      if signal.None? then None
      else
        var q := Query(halted, tripped,
                       Proposal(x.decisionId, StrategyIdFor(signal.value.reason), asset, Sell, 1.0,
                                signal.value.requested),
                       x.snapshot, Some(FeaturesOf(x)), x.now);
        Some(Result(true, [], Some(q.proposal), Some(Evaluate(c, q)), IntentFor(c, q, true), Some(signal.value.reason)))
  }

  function Refused(reasons: seq<string>): Result { Result(true, reasons, None, None, None, None) }

  /** Gates between the price exits and the strategy, in order; `None` lets the cycle through. */
  function GateReason(g: Config, x: Inputs): Option<string> {
    if g.universe.Some? && Upper(x.tick.symbol) !in g.universe.value then Some("promote_universe_excluded")
    else if Intel(x).Some? && Intel(x).value.providerUnavailable then Some("intelligence_provider_unavailable")
    else if g.requireIntelligence && (Intel(x).None? || Intel(x).value.isEmpty) then Some("no_external_intelligence")
    else if g.blockOnAdverseNews && Intel(x).Some? && Intel(x).value.adverseEvent then Some("adverse_news_event")
    else None
  }

  function RegimeReason(g: Config, side: Side, x: Inputs): Option<string> {
    if !g.onchainGate || side != Buy then None
    else if Intel(x).None? || Intel(x).value.regimePercentile.None? then Some("onchain_regime_unavailable")
    else if Intel(x).value.regimePercentile.value > g.onchainMaxPercentile then Some("onchain_regime_blocked")
    else None
  }

  function EntryQuery(g: Config, halted: bool, tripped: bool, x: Inputs, side: Side, confidence: real): Query {
    ProductPositive(x.snapshot.nav, g.notionalPct);
    Query(halted, tripped,
          Proposal(x.decisionId, ENTRY_STRATEGY, BaseAsset(x.tick.symbol), side, confidence,
                   x.snapshot.nav * g.notionalPct),
          x.snapshot, Some(FeaturesOf(x)), x.entryNow)
  }

  function Enter(g: Config, c: Settings, halted: bool, tripped: bool, x: Inputs, side: Side, confidence: real): Result {
    if RegimeReason(g, side, x).Some? then Refused([RegimeReason(g, side, x).value])
    else
      var q := EntryQuery(g, halted, tripped, x, side, confidence);
      Result(true, [], Some(q.proposal), Some(Evaluate(c, q)), IntentFor(c, q, false), None)
  }

  /** The strategy stage: pre-trade gate with its thesis exit, then the entry. */
  function Strategy(g: Config, c: Settings, halted: bool, tripped: bool, x: Inputs): Result {
    if !g.pretradeGate then Enter(g, c, halted, tripped, x, Buy, 0.5)
    else if !x.hasCandles then Refused(["missing_candle_history"])
    else
      var thesisExit := ExitResult(g, c, halted, tripped, x, Thesis(x.check.confirmedSide, x.check.trendingDown));
      if thesisExit.Some? then thesisExit.value
      else if !x.check.passed || x.check.confirmedSide.None? then Refused(x.check.reasons)
      else Enter(g, c, halted, tripped, x, x.check.confirmedSide.value, x.check.confidence)
  }

  function Process(g: Config, c: Settings, halted: bool, tripped: bool, x: Inputs): Result {
    if MarketReasons(g, x) != [] then Result(false, MarketReasons(g, x), None, None, None, None)
    else
      Choose(ExitResult(g, c, halted, tripped, x, NO_THESIS), GateReason(g, x), Strategy(g, c, halted, tripped, x))
  }

  /** A fired exit comes before every gate, and the gates before the strategy. */
  function Choose(priceExit: Option<Result>, gate: Option<string>, strategy: Result): Result {
    if priceExit.Some? then priceExit.value
    else if gate.Some? then Refused([gate.value])
    else strategy
  }

  // ----- meta-agent review -----

  datatype Mode = Off | Advisory | Veto

  /** One review: an answer when the model replied and validated. */
  datatype Review = Review(approved: Option<bool>, error: bool, confidenceDelta: real) {
    predicate Usable() { !error && approved.Some? }
  }

  const NO_REVIEW := Review(None, false, 0.0)

  /** The meta-agent is skipped when it is off, has no client, there is no proposal, or it is an exit. */
  function Reviewed(mode: Mode, hasClient: bool, r: Result, reply: Review): Review {
    if mode == Off || !hasClient || r.proposal.None? || IsExitStrategy(r.proposal.value.strategyId) then NO_REVIEW
    else reply
  }

  function ApplyReview(mode: Mode, r: Result, v: Review): Result {
    if mode != Veto || r.proposal.None? || IsExitStrategy(r.proposal.value.strategyId) then r
    else if !v.Usable() then r.(order := None, reasons := r.reasons + ["meta_agent_unavailable"])
    else if v.approved == Some(false) then r.(order := None, reasons := r.reasons + ["meta_agent_veto"])
    else
      var p := r.proposal.value;
      r.(proposal := Some(p.(confidence := Max(0.0, Min(1.0, p.confidence + v.confidenceDelta)))))
  }

  /** The whole decision: pipeline, then review with whatever the model replies. */
  function Decide(g: Config, c: Settings, halted: bool, tripped: bool, mode: Mode, hasClient: bool, reply: Review,
                  x: Inputs): Result {
    var r := Process(g, c, halted, tripped, x);
    ApplyReview(mode, r, Reviewed(mode, hasClient, r, reply))
  }

  // ----- protective exits cannot be frozen -----

  lemma ExitIdsAreExits(reason: ExitReason)
    ensures IsExitStrategy(StrategyIdFor(reason))
  {
    var id := StrategyIdFor(reason);
    assert |EXIT_PREFIX| <= |id| && EXIT_PREFIX == id[..|EXIT_PREFIX|];
  }

  /** A held position of a sound book shows a positive exposure in its snapshot. */
  lemma HeldShowsExposure(b: Book, at: real, asset: string)
    requires Valid(b) && Upper(asset) == asset && TakeSnapshot(b, at).1.Some?
    requires Get(TakeSnapshot(b, at).1.value.held, asset).Some?
    ensures Existing(TakeSnapshot(b, at).1.value, asset) > 0.0
  {
    SnapshotEntry(b.positions, b.marks, asset);
    HeldFits(b, asset);
    var p := PositionOf(b, asset);
    assert p.quantity > 0.0;
    ProductPositive(p.quantity, MarkOr(b.marks, asset, p));
  }

  ghost function FiredExit(g: Config, x: Inputs): Option<ExitSignal> {
    var held := Get(x.snapshot.held, BaseAsset(x.tick.symbol));
    if held.None? then None
    else EvaluateExits(g.exits, held.value, x.tick.last, x.now, x.barSeconds, NO_THESIS)
  }

  ghost function ExitQuery(halted: bool, tripped: bool, x: Inputs, signal: ExitSignal): Query {
    Query(halted, tripped,
          Proposal(x.decisionId, StrategyIdFor(signal.reason), BaseAsset(x.tick.symbol), Sell, 1.0, signal.requested),
          x.snapshot, Some(FeaturesOf(x)), x.now)
  }

  /** A fired price or time exit decides the cycle, and no review touches it. */
  lemma FiredExitDecides(g: Config, c: Settings, halted: bool, tripped: bool, mode: Mode, hasClient: bool,
                         reply: Review, x: Inputs)
    requires MarketReasons(g, x) == [] && FiredExit(g, x).Some?
    ensures var q := ExitQuery(halted, tripped, x, FiredExit(g, x).value);
            && IsExitStrategy(q.proposal.strategyId)
            && Decide(g, c, halted, tripped, mode, hasClient, reply, x).order == IntentFor(c, q, true)
  {
    ExitIdsAreExits(FiredExit(g, x).value.reason);
  }

  lemma ExitOrderExactlyWhen(c: Settings, q: Query)
    requires q.Reducing() && IsExitStrategy(q.proposal.strategyId)
    ensures var order := IntentFor(c, q, true);
            && (order.Some? <==>
                  !q.halted && !IsStale(c, q.snapshot, q.now) && Upper(q.proposal.asset) in c.assets
                      && !TooWide(c, q.features))
            && (order.Some? ==>
                  && order.value.reduceOnly && order.value.side == Sell && order.value.asset == q.proposal.asset
                  && order.value.decisionId == q.proposal.decisionId
                  && order.value.notional == Min(q.proposal.requested, Existing(q.snapshot, q.proposal.asset)) > 0.0)
  {
    ExitApprovedExactlyWhen(c, q);
    ApprovalBounds(c, q);
  }

  /** Protective exits cannot be frozen: on the snapshot of a sound book, with market data accepted,
      a fired price or time exit becomes a reduce-only sell of what it asks, up to the exposure, exactly
      when the halt is clear, the snapshot fresh, the asset listed and the spread within limit --
      whatever the loss, drawdown, breaker, cash, exposure, universe, news or meta-agent say. */
  lemma ExitsCannotBeFrozen(b: Book, at: real, g: Config, c: Settings, halted: bool, tripped: bool,
                            mode: Mode, hasClient: bool, reply: Review, x: Inputs)
    requires Valid(b) && TakeSnapshot(b, at).1 == Some(x.snapshot)
    requires MarketReasons(g, x) == [] && FiredExit(g, x).Some?
    ensures var asset := BaseAsset(x.tick.symbol);
            var order := Decide(g, c, halted, tripped, mode, hasClient, reply, x).order;
            && (order.Some? <==>
                  !halted && !IsStale(c, x.snapshot, x.now) && asset in c.assets && x.tick.spreadBps <= c.maxSpreadBps)
            && (order.Some? ==>
                  && order.value.reduceOnly && order.value.side == Sell && order.value.asset == asset
                  && order.value.decisionId == x.decisionId
                  && order.value.notional == Min(FiredExit(g, x).value.requested, Existing(x.snapshot, asset)) > 0.0)
  {
    var asset := BaseAsset(x.tick.symbol);
    UpperIdempotent(BeforeSlash(x.tick.symbol));
    HeldShowsExposure(b, at, asset);
    FiredExitDecides(g, c, halted, tripped, mode, hasClient, reply, x);
    ExitOrderExactlyWhen(c, ExitQuery(halted, tripped, x, FiredExit(g, x).value));
  }

  // ----- controls only withhold -----

  /** No order at all, or the same order at no larger a size. */
  ghost predicate Withheld(o': Option<Intent>, o: Option<Intent>) {
    o'.None? || (o.Some? && o'.value == o.value.(notional := o'.value.notional)
                 && o'.value.notional <= o.value.notional)
  }

  /** Every gate on in `g` is on in `g'`, at thresholds at least as strict; the exit rules are the same. */
  ghost predicate MoreGated(g': Config, g: Config) {
    && g'.maxTickAgeSeconds <= g.maxTickAgeSeconds && g'.maxSpreadBps <= g.maxSpreadBps
    && g'.maxDivergenceBps <= g.maxDivergenceBps && g'.notionalPct == g.notionalPct
    && (g.universe.Some? ==> g'.universe.Some? && g'.universe.value <= g.universe.value)
    && (g.requireIntelligence ==> g'.requireIntelligence) && (g.blockOnAdverseNews ==> g'.blockOnAdverseNews)
    && (g.onchainGate ==> g'.onchainGate) && g'.onchainMaxPercentile <= g.onchainMaxPercentile
    && g'.pretradeGate == g.pretradeGate && g'.exits == g.exits
  }

  lemma OrderShrinks(t: Settings, c: Settings, q': Query, q: Query, reduceOnly: bool)
    requires Tighter(t, c) && Stricter(q', q)
    ensures Withheld(IntentFor(t, q', reduceOnly), IntentFor(c, q, reduceOnly))
  {
    ApprovalBounds(t, q');
    ApprovalBounds(c, q);
    TighteningNeverRaises(t, c, q', q);
  }

  lemma MarketReasonsGrow(g': Config, g: Config, x: Inputs)
    requires MoreGated(g', g) && MarketReasons(g, x) != []
    ensures MarketReasons(g', x) != []
  {
    var rs := Eligible(x.references, BaseAsset(x.tick.symbol));
    if Consistent(x.tick.last, rs, g'.maxDivergenceBps) {
      assert Consistent(x.tick.last, rs, g.maxDivergenceBps);
    }
  }

  lemma ExitShrinks(g: Config, t: Settings, c: Settings, halted': bool, halted: bool, tripped': bool, tripped: bool,
                    x: Inputs, th: Thesis)
    requires Tighter(t, c) && (halted ==> halted') && (tripped ==> tripped')
    ensures var e', e := ExitResult(g, t, halted', tripped', x, th), ExitResult(g, c, halted, tripped, x, th);
            && (e'.Some? <==> e.Some?)
            && (e.Some? ==> Withheld(e'.value.order, e.value.order))
  {
    var held := Get(x.snapshot.held, BaseAsset(x.tick.symbol));
    if held.Some? {
      var signal := EvaluateExits(g.exits, held.value, x.tick.last, x.now, x.barSeconds, th);
      if signal.Some? {
        OrderShrinks(t, c, ExitQuery(halted', tripped', x, signal.value), ExitQuery(halted, tripped, x, signal.value),
                     true);
      }
    }
  }

  lemma EntryShrinks(g': Config, g: Config, t: Settings, c: Settings, halted': bool, halted: bool, tripped': bool,
                     tripped: bool,
                     x: Inputs, side: Side, confidence: real)
    requires MoreGated(g', g) && Tighter(t, c) && (halted ==> halted') && (tripped ==> tripped')
    ensures Withheld(Enter(g', t, halted', tripped', x, side, confidence).order,
                     Enter(g, c, halted, tripped, x, side, confidence).order)
  {
    OrderShrinks(t, c, EntryQuery(g', halted', tripped', x, side, confidence),
                 EntryQuery(g, halted, tripped, x, side, confidence), false);
  }

  lemma StrategyShrinks(g': Config, g: Config, t: Settings, c: Settings, halted': bool, halted: bool, tripped': bool,
                        tripped: bool, x: Inputs)
    requires MoreGated(g', g) && Tighter(t, c) && (halted ==> halted') && (tripped ==> tripped')
    ensures Withheld(Strategy(g', t, halted', tripped', x).order, Strategy(g, c, halted, tripped, x).order)
  {
    if !g.pretradeGate {
      EntryShrinks(g', g, t, c, halted', halted, tripped', tripped, x, Buy, 0.5);
    } else {
      ExitDependsOnRules(g', g, t, halted', tripped', x, Thesis(x.check.confirmedSide, x.check.trendingDown));
      ExitShrinks(g, t, c, halted', halted, tripped', tripped, x, Thesis(x.check.confirmedSide, x.check.trendingDown));
      if x.check.confirmedSide.Some? {
        EntryShrinks(g', g, t, c, halted', halted, tripped', tripped, x, x.check.confirmedSide.value,
                     x.check.confidence);
      }
    }
  }

  lemma ExitDependsOnRules(g': Config, g: Config, c: Settings, halted: bool, tripped: bool, x: Inputs, th: Thesis)
    requires g'.exits == g.exits
    ensures ExitResult(g', c, halted, tripped, x, th) == ExitResult(g, c, halted, tripped, x, th)
  {
  }

  lemma GatesStayClosed(g': Config, g: Config, x: Inputs)
    requires MoreGated(g', g) && GateReason(g, x).Some?
    ensures GateReason(g', x).Some?
  {
  }

  lemma ChoiceShrinks(e': Option<Result>, e: Option<Result>, gate': Option<string>, gate: Option<string>, r': Result,
                      r: Result)
    requires (e'.Some? <==> e.Some?) && (e.Some? ==> Withheld(e'.value.order, e.value.order))
    requires (gate.Some? ==> gate'.Some?) && Withheld(r'.order, r.order)
    ensures Withheld(Choose(e', gate', r').order, Choose(e, gate, r).order)
  {
  }

  lemma ProcessShrinks(g': Config, g: Config, t: Settings, c: Settings, halted': bool, halted: bool, tripped': bool,
                       tripped: bool, x: Inputs)
    requires MoreGated(g', g) && Tighter(t, c) && (halted ==> halted') && (tripped ==> tripped')
    ensures Withheld(Process(g', t, halted', tripped', x).order, Process(g, c, halted, tripped, x).order)
  {
    if MarketReasons(g', x) == [] {
      if MarketReasons(g, x) != [] {
        MarketReasonsGrow(g', g, x);
      }
      ExitDependsOnRules(g', g, t, halted', tripped', x, NO_THESIS);
      ExitShrinks(g, t, c, halted', halted, tripped', tripped, x, NO_THESIS);
      StrategyShrinks(g', g, t, c, halted', halted, tripped', tripped, x);
      if GateReason(g, x).Some? {
        GatesStayClosed(g', g, x);
      }
      ChoiceShrinks(ExitResult(g', t, halted', tripped', x, NO_THESIS), ExitResult(g, c, halted, tripped, x, NO_THESIS),
                    GateReason(g', x), GateReason(g, x),
                    Strategy(g', t, halted', tripped', x), Strategy(g, c, halted, tripped, x));
    }
  }

  lemma ReviewOnlyWithholds(mode: Mode, r: Result, v: Review)
    ensures var r' := ApplyReview(mode, r, v); (r'.order == r.order || r'.order.None?) && r'.risk == r.risk
    ensures r.proposal.Some? ==>
              ApplyReview(mode, r, v).proposal.Some? &&
              ApplyReview(mode, r, v).proposal.value ==
              r.proposal.value.(confidence := ApplyReview(mode, r, v).proposal.value.confidence)
  {
  }

  /** Controls only withhold: switching on any gate, tightening any limit, engaging halt or breaker,
      and putting any meta-agent with any reply in front, leaves no order or the same order -- same
      decision, asset and side -- at no larger a notional. */
  lemma ControlsOnlyWithhold(g': Config, g: Config, t: Settings, c: Settings, halted': bool, halted: bool,
                             tripped': bool, tripped: bool,
                             mode: Mode, hasClient: bool, reply: Review, x: Inputs)
    requires MoreGated(g', g) && Tighter(t, c) && (halted ==> halted') && (tripped ==> tripped')
    ensures Withheld(Decide(g', t, halted', tripped', mode, hasClient, reply, x).order,
                     Decide(g, c, halted, tripped, Off, false, NO_REVIEW, x).order)
  {
    ProcessShrinks(g', g, t, c, halted', halted, tripped', tripped, x);
    var r := Process(g', t, halted', tripped', x);
    ReviewOnlyWithholds(mode, r, Reviewed(mode, hasClient, r, reply));
  }
}
