/** The deterministic risk engine: one proposal judged against one snapshot. */
module Risk {
  import opened Common
  import opened Dictionary
  import opened Portfolio
  import opened Planning

  datatype Settings = Settings(
    assets: set<string>, maxPositionPct: Positive, maxDailyLossPct: Positive, maxDrawdownPct: Positive,
    maxOpenPositions: nat, minCashReservePct: NonNegative, maxGrossExposurePct: Positive,
    maxStateAgeSeconds: Positive, maxSpreadBps: Positive,
    volatilitySizing: bool, targetVolatility: Positive, garchSizing: bool, garchTargetVol: Positive)

  datatype Features = Features(spreadBps: real, volatility: real, garchVol: Option<real>)

  datatype Proposal = Proposal(
    decisionId: string, strategyId: string, asset: string, side: Side, confidence: real, requested: Positive)

  datatype Decision = Allow | Reduce | Reject

  datatype Reason =
    | KillSwitch | StaleState | DailyLoss | Drawdown | GrossExposure | CashReserve | MaxPositions
    | StrategyBreaker | NotAllowlisted | SpreadTooWide | SellCapped | PositionLimit
    | VolatilityScaled | GarchScaled | SizeReduced

  datatype RiskResult = RiskResult(decision: Decision, approved: real, reasons: seq<Reason>)

  const EXIT_PREFIX := "exit-"

  predicate IsExitStrategy(strategyId: string) {
    EXIT_PREFIX <= strategyId
  }

  // ----- what the engine looks at -----

  function Existing(s: Snapshot, asset: string): NonNegative {
    var e: Option<NonNegative> := Get<NonNegative>(s.exposures, Upper(asset));
    if e.Some? then e.value else 0.0
  }

  predicate IsReducing(p: Proposal, s: Snapshot) {
    p.side == Sell && Existing(s, p.asset) > 0.0
  }

  function OpenCount(exposures: Dict<NonNegative>): nat {
    if exposures == [] then 0
    else (if exposures[0].1 > 0.0 then 1 else 0) + OpenCount(exposures[1..])
  }

  function Gross(exposures: Dict<NonNegative>): real {
    Sum<NonNegative>(exposures, AMOUNT)
  }

  function GrossCap(c: Settings, s: Snapshot): real { s.nav * c.maxGrossExposurePct }

  function CashFloor(c: Settings, s: Snapshot): real { s.nav * c.minCashReservePct }

  function PositionCap(c: Settings, s: Snapshot): real { s.nav * c.maxPositionPct }

  function GrossRoom(c: Settings, s: Snapshot): real { GrossCap(c, s) - Gross(s.exposures) }

  function CashRoom(c: Settings, s: Snapshot): real { s.cash - CashFloor(c, s) }

  function PositionRoom(c: Settings, s: Snapshot, asset: string): real {
    Max(0.0, PositionCap(c, s) - Existing(s, asset))
  }

  predicate IsStale(c: Settings, s: Snapshot, now: real) { now - s.observedAt > c.maxStateAgeSeconds }

  predicate LostTheDay(c: Settings, s: Snapshot) { s.dailyPnl <= -(s.nav * c.maxDailyLossPct) }

  predicate DrawnDown(c: Settings, s: Snapshot) { 1.0 - s.nav / s.peakNav >= c.maxDrawdownPct }

  predicate NoFreeSlot(c: Settings, s: Snapshot, asset: string) {
    Existing(s, asset) <= 0.0 && OpenCount(s.exposures) >= c.maxOpenPositions
  }

  predicate TooWide(c: Settings, f: Option<Features>) {
    f.Some? && f.value.spreadBps > c.maxSpreadBps
  }

  // ----- sizing -----

  /** A scaling that can only shrink. */
  type Factor = r: real | 0.0 < r <= 1.0 witness 1.0

  function Ratio(target: Positive, observed: real): Factor {
    if observed <= 0.0 then 1.0
    else
      QuotientPositive(target, observed);
      Min(1.0, target / observed)
  }

  function Scale(amount: Positive, factor: Factor): (r: Positive)
    ensures r <= amount
  {
    assert amount * factor == amount - amount * (1.0 - factor);
    amount * factor
  }

  function VolatilityFactor(c: Settings, f: Option<Features>): Factor {
    if f.Some? && c.volatilitySizing then Ratio(c.targetVolatility, f.value.volatility) else 1.0
  }

  /** A missing forecast is no information, so no scaling. */
  function GarchFactor(c: Settings, f: Option<Features>): Factor {
    if f.Some? && c.garchSizing && f.value.garchVol.Some?
    then Ratio(c.garchTargetVol, f.value.garchVol.value) else 1.0
  }

  /** What is asked for once volatility has had its say: never more. */
  function ScaledRequest(c: Settings, p: Proposal, f: Option<Features>): (r: Positive)
    ensures r <= p.requested
  {
    Scale(Scale(p.requested, VolatilityFactor(c, f)), GarchFactor(c, f))
  }

  function Room(c: Settings, s: Snapshot, asset: string): real {
    Min(PositionRoom(c, s, asset), Min(GrossRoom(c, s), CashRoom(c, s)))
  }

  // ----- reasons -----

  function Flag(cond: bool, r: Reason): seq<Reason> { if cond then [r] else [] }

  /** Everything one evaluation looks at besides the limits: `halted` is the operator switch,
      `tripped` what the strategy breaker answers. */
  datatype Query = Query(
    halted: bool, tripped: bool, proposal: Proposal, snapshot: Snapshot, features: Option<Features>, now: real)
  {
    predicate Reducing() { IsReducing(proposal, snapshot) }

    predicate BreakerBlocks() { !IsExitStrategy(proposal.strategyId) && tripped }
  }

  /** The checks that block a proposal whatever it does to the book. */
  predicate CommonBlock(c: Settings, q: Query) {
    || IsStale(c, q.snapshot, q.now) || q.BreakerBlocks()
    || Upper(q.proposal.asset) !in c.assets || TooWide(c, q.features)
  }

  /** The checks that block only what adds risk. */
  predicate AdditiveBlock(c: Settings, s: Snapshot, asset: string) {
    || LostTheDay(c, s) || DrawnDown(c, s) || GrossRoom(c, s) <= 0.0 || CashRoom(c, s) <= 0.0
    || NoFreeSlot(c, s, asset) || PositionRoom(c, s, asset) <= 0.0
  }

  predicate Blocked(c: Settings, q: Query) {
    q.halted || CommonBlock(c, q) || (!q.Reducing() && AdditiveBlock(c, q.snapshot, q.proposal.asset))
  }

  /** Reductions are capped to what is held, additions scaled and capped to the tightest room. */
  function Size(c: Settings, p: Proposal, s: Snapshot, f: Option<Features>): real {
    if IsReducing(p, s) then Min(p.requested, Existing(s, p.asset))
    else Min(ScaledRequest(c, p, f), Room(c, s, p.asset))
  }

  /** The reasons the account-level checks report, in the order they run. */
  function AccountReasons(c: Settings, q: Query): seq<Reason> {
    var s, p, adding := q.snapshot, q.proposal, !q.Reducing();
    Flag(IsStale(c, s, q.now), StaleState) + Flag(LostTheDay(c, s), DailyLoss) + Flag(DrawnDown(c, s), Drawdown)
    + Flag(adding && GrossRoom(c, s) <= 0.0, GrossExposure) + Flag(adding && CashRoom(c, s) <= 0.0, CashReserve)
    + Flag(adding && NoFreeSlot(c, s, p.asset), MaxPositions)
  }

  /** Those, then what the strategy, asset and venue checks report. */
  function CheckReasons(c: Settings, q: Query): seq<Reason> {
    AccountReasons(c, q) + Flag(q.BreakerBlocks(), StrategyBreaker)
    + Flag(Upper(q.proposal.asset) !in c.assets, NotAllowlisted) + Flag(TooWide(c, q.features), SpreadTooWide)
  }

  function SizingReasons(c: Settings, q: Query): seq<Reason> {
    var s, p, f := q.snapshot, q.proposal, q.features;
    if q.Reducing() then Flag(Size(c, p, s, f) < p.requested, SellCapped)
    else if Blocked(c, q) then Flag(PositionRoom(c, s, p.asset) <= 0.0, PositionLimit)
    else Flag(VolatilityFactor(c, f) < 1.0, VolatilityScaled) + Flag(GarchFactor(c, f) < 1.0, GarchScaled)
         + Flag(Size(c, p, s, f) != p.requested, SizeReduced)
  }

  function Approved(c: Settings, q: Query): real {
    if Blocked(c, q) then 0.0 else Size(c, q.proposal, q.snapshot, q.features)
  }

  function Evaluate(c: Settings, q: Query): RiskResult {
    RiskResult(if Blocked(c, q) then Reject
               else if Size(c, q.proposal, q.snapshot, q.features) == q.proposal.requested then Allow else Reduce,
               Approved(c, q),
               if q.halted then [KillSwitch] else CheckReasons(c, q) + SizingReasons(c, q))
  }

  /** An approval above zero becomes an intent of exactly the approved size. */
  function IntentFor(c: Settings, q: Query, reduceOnly: bool): Option<Intent> {
    var r := Evaluate(c, q);
    if r.decision != Reject && r.approved > 0.0 then
      Some(Intent(q.proposal.decisionId, q.proposal.asset, q.proposal.side, r.approved, reduceOnly))
    else None
  }

  // ----- what holds of every decision -----

  lemma SizeBounds(c: Settings, q: Query)
    requires !Blocked(c, q)
    ensures 0.0 < Size(c, q.proposal, q.snapshot, q.features) <= q.proposal.requested
  {
  }

  /** Approved never exceeds requested; a rejection is exactly a zero approval; an allowance is
      exactly a full one. */
  lemma ApprovalBounds(c: Settings, q: Query)
    ensures var r := Evaluate(c, q);
            && 0.0 <= r.approved <= q.proposal.requested
            && (r.decision == Reject <==> r.approved == 0.0)
            && (r.decision == Allow <==> r.approved == q.proposal.requested)
  {
    if !Blocked(c, q) {
      SizeBounds(c, q);
    }
  }

  /** A proposal that adds risk is approved only inside every room the book has. */
  lemma AddingStaysInside(c: Settings, q: Query)
    requires !q.Reducing() && Approved(c, q) > 0.0
    ensures var s, approved := q.snapshot, Approved(c, q);
            && approved <= s.cash - CashFloor(c, s)
            && approved + Existing(s, q.proposal.asset) <= PositionCap(c, s)
            && approved + Gross(s.exposures) <= GrossCap(c, s)
  {
  }

  /** An exit is approved exactly when the halt is clear, the snapshot fresh, the asset listed and
      the spread within limit; loss, drawdown, breaker, cash and exposure limits have no say. */
  lemma ExitApprovedExactlyWhen(c: Settings, q: Query)
    requires q.Reducing() && IsExitStrategy(q.proposal.strategyId)
    ensures var r := Evaluate(c, q);
            && (r.decision != Reject <==>
                  !q.halted && !IsStale(c, q.snapshot, q.now) && Upper(q.proposal.asset) in c.assets
                      && !TooWide(c, q.features))
            && (r.decision != Reject ==>
                  r.approved == Min(q.proposal.requested, Existing(q.snapshot, q.proposal.asset)) > 0.0)
  {
  }

  // ----- tightening -----

  /** Every limit of `t` is at least as strict as in `c`. */
  ghost predicate Tighter(t: Settings, c: Settings) {
    && t.assets <= c.assets && t.maxPositionPct <= c.maxPositionPct
    && t.maxDailyLossPct <= c.maxDailyLossPct && t.maxDrawdownPct <= c.maxDrawdownPct
    && t.maxOpenPositions <= c.maxOpenPositions && t.minCashReservePct >= c.minCashReservePct
    && t.maxGrossExposurePct <= c.maxGrossExposurePct && t.maxStateAgeSeconds <= c.maxStateAgeSeconds
    && t.maxSpreadBps <= c.maxSpreadBps
    && (c.volatilitySizing ==> t.volatilitySizing) && t.targetVolatility <= c.targetVolatility
    && (c.garchSizing ==> t.garchSizing) && t.garchTargetVol <= c.garchTargetVol
  }

  /** The same question with the halt or the breaker possibly engaged on top. */
  ghost predicate Stricter(q': Query, q: Query) {
    && q'.proposal == q.proposal && q'.snapshot == q.snapshot && q'.features == q.features && q'.now == q.now
    && (q.halted ==> q'.halted) && (q.tripped ==> q'.tripped)
  }

  lemma Divided(a: real, b: real, x: real)
    requires a <= b && x > 0.0
    ensures a / x <= b / x
  {
  }

  lemma RoomShrinks(t: Settings, c: Settings, s: Snapshot, asset: string)
    requires Tighter(t, c)
    ensures PositionRoom(t, s, asset) <= PositionRoom(c, s, asset)
    ensures GrossRoom(t, s) <= GrossRoom(c, s)
    ensures CashRoom(t, s) <= CashRoom(c, s)
    ensures LostTheDay(c, s) ==> LostTheDay(t, s)
  {
    ProductGrows(s.nav, t.maxPositionPct, c.maxPositionPct);
    ProductGrows(s.nav, t.maxGrossExposurePct, c.maxGrossExposurePct);
    ProductGrows(s.nav, c.minCashReservePct, t.minCashReservePct);
    ProductGrows(s.nav, t.maxDailyLossPct, c.maxDailyLossPct);
  }

  lemma RatioShrinks(t: Positive, c: Positive, observed: real)
    requires t <= c
    ensures Ratio(t, observed) <= Ratio(c, observed)
  {
    if observed > 0.0 {
      Divided(t, c, observed);
    }
  }

  lemma ScaleShrinks(a: Positive, k: Factor, a': Positive, k': Factor)
    requires a <= a' && k <= k'
    ensures Scale(a, k) <= Scale(a', k')
  {
    ProductGrows(a, k, k');
    ProductGrows(k', a, a');
  }

  lemma BlocksGrow(t: Settings, c: Settings, q': Query, q: Query)
    requires Tighter(t, c) && Stricter(q', q) && Blocked(c, q)
    ensures Blocked(t, q')
  {
    RoomShrinks(t, c, q.snapshot, q.proposal.asset);
  }

  lemma RequestShrinks(t: Settings, c: Settings, p: Proposal, f: Option<Features>)
    requires Tighter(t, c)
    ensures ScaledRequest(t, p, f) <= ScaledRequest(c, p, f)
  {
    if f.Some? {
      RatioShrinks(t.targetVolatility, c.targetVolatility, f.value.volatility);
      if f.value.garchVol.Some? {
        RatioShrinks(t.garchTargetVol, c.garchTargetVol, f.value.garchVol.value);
      }
    }
    var (v, v') := (VolatilityFactor(t, f), VolatilityFactor(c, f));
    ScaleShrinks(p.requested, v, p.requested, v');
    ScaleShrinks(Scale(p.requested, v), GarchFactor(t, f), Scale(p.requested, v'), GarchFactor(c, f));
  }

  lemma SizeShrinks(t: Settings, c: Settings, p: Proposal, s: Snapshot, f: Option<Features>)
    requires Tighter(t, c)
    ensures Size(t, p, s, f) <= Size(c, p, s, f)
  {
    RoomShrinks(t, c, s, p.asset);
    RequestShrinks(t, c, p, f);
  }

  /** Engaging the halt or the breaker, or tightening any limits, never raises an approval. */
  lemma TighteningNeverRaises(t: Settings, c: Settings, q': Query, q: Query)
    requires Tighter(t, c) && Stricter(q', q)
    ensures Approved(t, q') <= Approved(c, q)
  {
    if Blocked(c, q) {
      BlocksGrow(t, c, q', q);
    } else {
      SizeBounds(c, q);
      SizeShrinks(t, c, q.proposal, q.snapshot, q.features);
    }
  }
}
