/** The opportunity funnel: each cycle reduced to where it stopped, counted, and recounted in place
    when a pending order turns out to have filled. */
module OpportunityFunnel {
  import opened Common
  import opened Dictionary
  import L = Ledgers

  datatype Stage =
    | AnyCycle | ValidMarketData | SignalCandidate | PretradeEligible
    | RiskAllowed | MetaAgentRetained | PlannerAccepted | FilledStage

  const STAGE_ORDER: seq<Stage> :=
    [AnyCycle, ValidMarketData, SignalCandidate, PretradeEligible, RiskAllowed, MetaAgentRetained, PlannerAccepted,
     FilledStage]

  function Rank(s: Stage): nat {
    match s
    case AnyCycle => 0
    case ValidMarketData => 1
    case SignalCandidate => 2
    case PretradeEligible => 3
    case RiskAllowed => 4
    case MetaAgentRetained => 5
    case PlannerAccepted => 6
    case FilledStage => 7
  }

  datatype Gate =
    | MarketDataGate | CandleHistoryGate | UniverseGate | IntelligenceGate | SignalGate
    | PretradeGate | RiskGate | MetaAgentGate | PlannerGate | FillGate

  datatype Category = NoOpportunity | OpportunityRejected | FillUnavailable | FilledCategory

  function CategoryOf(g: Gate): Category {
    match g
    case MarketDataGate => NoOpportunity
    case CandleHistoryGate => NoOpportunity
    case UniverseGate => NoOpportunity
    case SignalGate => NoOpportunity
    case FillGate => FillUnavailable
    case _ => OpportunityRejected
  }

  datatype Observation = Observation(
    symbol: string, strategyId: Option<string>, decisionId: Option<string>,
    stage: Stage, gate: Option<Gate>, category: Category, reasons: seq<string>, isExit: bool)

  const PENDING_REASON := "venue_fill_pending"
  const OVERFLOW_KEY := "(other)"
  const MAX_REASON_KEYS := 64
  const MAX_PENDING := 4096

  // ----- classification -----

  datatype Check = Check(reasons: seq<string>, hasSide: bool)

  datatype RiskSummary = RiskSummary(rejected: bool, approved: real, reasons: seq<string>, verdict: string)

  /** What a cycle leaves behind, as far as classification looks at it; the proposal is its
      strategy and decision ids. */
  datatype Cycle = Cycle(
    symbol: string, accepted: bool, rejections: seq<string>, check: Option<Check>,
    proposal: Option<(string, string)>, isExit: bool, risk: Option<RiskSummary>, hasOrder: bool,
    suppressed: bool, suppressionReason: Option<string>, status: Option<string>)

  const CANDLE_REASONS := {"missing_candle_history", "insufficient_candle_history", "stale_candle_history",
                           "candle_interval_mismatch"}
  const UNIVERSE_REASONS := {"promote_universe_excluded"}
  const INTELLIGENCE_REASONS := {"no_external_intelligence", "adverse_news_event", "intelligence_provider_unavailable"}
  const SIGNAL_REASONS := {"no_strategy_consensus", "strategy_does_not_confirm_side"}
  const META_REASONS := {"meta_agent_veto", "meta_agent_unavailable"}
  const REGIME_REASONS := {"onchain_regime_blocked", "onchain_regime_unavailable"}
  const PLANNER_STATUSES := {"plan_rejected", "paper_fill_invalid_exit_size"}
  const FILLED_STATUSES := {"paper_filled"}
  const PENDING_STATUSES := {"submitted", "adopted", "shadow_recorded"}

  function Matching(reasons: seq<string>, known: set<string>): seq<string> {
    if reasons == [] then []
    else (if reasons[0] in known then [reasons[0]] else []) + Matching(reasons[1..], known)
  }

  function Or(a: seq<string>, b: seq<string>): seq<string> { if a != [] then a else b }

  /** What classification guarantees and counting relies on. */
  ghost predicate Classified(o: Observation) {
    && (o.gate.None? <==> o.stage == FilledStage)
    && o.category == (if o.gate.None? then FilledCategory else CategoryOf(o.gate.value))
    && (o.decisionId.Some? ==> o.strategyId.Some?)
    && (o.decisionId.Some? ==> Rank(o.stage) >= Rank(PretradeEligible))
  }

  function Stopped(c: Cycle, stage: Stage, gate: Gate, reasons: seq<string>): (o: Observation)
    requires stage != FilledStage
    requires c.proposal.Some? ==> Rank(stage) >= Rank(PretradeEligible)
    ensures Classified(o)
  {
    Observation(c.symbol,
                if c.proposal.Some? then Some(c.proposal.value.0) else None,
                if c.proposal.Some? then Some(c.proposal.value.1) else None,
                stage, Some(gate), CategoryOf(gate), reasons, c.proposal.Some? && c.isExit)
  }

  function ClassifyUnproposed(c: Cycle): (o: Observation)
    requires c.proposal.None?
    ensures Classified(o) && o.stage != FilledStage
  {
    var checkReasons := if c.check.Some? then c.check.value.reasons else [];
    var candle := Or(Matching(c.rejections, CANDLE_REASONS), Matching(checkReasons, CANDLE_REASONS));
    var universe := Matching(c.rejections, UNIVERSE_REASONS);
    var intelligence := Matching(c.rejections, INTELLIGENCE_REASONS);
    var signal := Or(Matching(checkReasons, SIGNAL_REASONS), Matching(c.rejections, SIGNAL_REASONS));
    var regime := Matching(c.rejections, REGIME_REASONS);
    if candle != [] then Stopped(c, ValidMarketData, CandleHistoryGate, candle)
    else if universe != [] then Stopped(c, ValidMarketData, UniverseGate, universe)
    else if intelligence != [] then Stopped(c, ValidMarketData, IntelligenceGate, intelligence)
    else if signal != [] || (c.check.Some? && !c.check.value.hasSide) then
      Stopped(c, ValidMarketData, SignalGate, Or(signal, Or(checkReasons, Or(c.rejections, ["no_confirmed_side"]))))
    else if regime != [] then Stopped(c, SignalCandidate, IntelligenceGate, regime)
    else Stopped(c, SignalCandidate, PretradeGate, Or(checkReasons, Or(c.rejections, ["pretrade_rejected"])))
  }

  function ClassifyExecution(c: Cycle, filled: Option<bool>): (o: Observation)
    requires c.proposal.Some?
    ensures Classified(o)
  {
    if filled == Some(true) || (filled.None? && c.status.Some? && c.status.value in FILLED_STATUSES) then
      Observation(c.symbol, Some(c.proposal.value.0), Some(c.proposal.value.1), FilledStage, None, FilledCategory,
                  if c.status.Some? && c.status.value != "" then [c.status.value] else [], c.isExit)
    else if c.status.None? then Stopped(c, MetaAgentRetained, FillGate, ["execution_not_attempted"])
    else if c.status.value in PLANNER_STATUSES then Stopped(c, MetaAgentRetained, PlannerGate, [c.status.value])
    else if c.status.value in PENDING_STATUSES
        then Stopped(c, PlannerAccepted, FillGate, [PENDING_REASON, c.status.value])
    else Stopped(c, MetaAgentRetained, FillGate, [c.status.value])
  }

  /** `filled` is the ledger's word; none means to trust the execution status. */
  function Classify(c: Cycle, filled: Option<bool>): (o: Observation)
    ensures Classified(o)
    ensures o.stage == FilledStage ==> c.hasOrder && c.risk.Some? && c.risk.value.approved > 0.0
  {
    if !c.accepted then Stopped(c.(proposal := None), AnyCycle, MarketDataGate,
                                Or(c.rejections, ["market_data_rejected"]))
    else if c.proposal.None? then ClassifyUnproposed(c)
    else if c.risk.None? then Stopped(c, PretradeEligible, RiskGate, ["risk_result_missing"])
    else if c.risk.value.rejected || c.risk.value.approved <= 0.0 then
      Stopped(c, PretradeEligible, RiskGate, Or(c.risk.value.reasons, [c.risk.value.verdict]))
    else
      var meta := Matching(c.rejections, META_REASONS);
      if c.suppressed || meta != [] || !c.hasOrder then
        Stopped(c, RiskAllowed, MetaAgentGate,
                Or(meta, if c.suppressionReason.Some? && c.suppressionReason.value != ""
                   then [c.suppressionReason.value]
                         else Or(c.rejections, ["paper_order_withheld"])))
      else ClassifyExecution(c, filled)
  }

  // ----- counters -----

  datatype Counts = Counts(stages: map<Stage, nat>, gates: map<Gate, nat>, categories: map<Category, nat>,
                           exitsFilled: nat)

  const NO_COUNTS := Counts(map[], map[], map[], 0)

  function At<K>(m: map<K, nat>, k: K): nat { if k in m then m[k] else 0 }

  function Bump<K>(m: map<K, nat>, k: K): map<K, nat> { m[k := At(m, k) + 1] }

  /** A count that reaches zero is dropped, not kept. */
  function Decrement<K>(m: map<K, nat>, k: K): map<K, nat> {
    if At(m, k) > 1 then m[k := At(m, k) - 1] else m - {k}
  }

  function BumpStages(m: map<Stage, nat>, n: nat): map<Stage, nat>
    requires n <= |STAGE_ORDER|
  {
    if n == 0 then m else Bump(BumpStages(m, n - 1), STAGE_ORDER[n - 1])
  }

  function DropStages(m: map<Stage, nat>, n: nat): map<Stage, nat>
    requires n <= |STAGE_ORDER|
  {
    if n == 0 then m else Decrement(DropStages(m, n - 1), STAGE_ORDER[n - 1])
  }

  function Counted(c: Counts, o: Observation): Counts {
    Counts(BumpStages(c.stages, Rank(o.stage) + 1),
           if o.gate.Some? then Bump(c.gates, o.gate.value) else c.gates,
           Bump(c.categories, o.category),
           c.exitsFilled + (if o.stage == FilledStage && o.isExit then 1 else 0))
  }

  function Retracted(c: Counts, o: Observation): Counts {
    c.(stages := DropStages(c.stages, Rank(o.stage) + 1),
       gates := if o.gate.Some? then Decrement(c.gates, o.gate.value) else c.gates,
       categories := Decrement(c.categories, o.category))
  }

  // ----- the plain recount -----

  /** One thing a counter counts, and the slice of the run a counter is about. */
  datatype Feature = Reached(stage: Stage) | BlockedBy(gate: Gate) | FellIn(category: Category) | ExitFilled

  datatype Scope = Everything | OfSymbol(symbol: string) | OfStrategy(strategy: string)

  predicate Has(o: Observation, f: Feature) {
    match f
    case Reached(s) => Rank(s) <= Rank(o.stage)
    case BlockedBy(g) => o.gate == Some(g)
    case FellIn(c) => o.category == c
    case ExitFilled => o.stage == FilledStage && o.isExit
  }

  predicate In(o: Observation, scope: Scope) {
    match scope
    case Everything => true
    case OfSymbol(s) => o.symbol == s
    case OfStrategy(s) => o.strategyId == Some(s)
  }

  function Recount(log: seq<Observation>, scope: Scope, f: Feature): nat {
    if log == [] then 0
    else
      var o := log[|log| - 1];
      Recount(log[..|log| - 1], scope, f) + (if In(o, scope) && Has(o, f) then 1 else 0)
  }

  function Shown(c: Counts, f: Feature): nat {
    match f
    case Reached(s) => At(c.stages, s)
    case BlockedBy(g) => At(c.gates, g)
    case FellIn(k) => At(c.categories, k)
    case ExitFilled => c.exitsFilled
  }

  ghost predicate Tallies(c: Counts, log: seq<Observation>, scope: Scope) {
    forall f :: Shown(c, f) == Recount(log, scope, f)
  }

  function One(b: bool): nat { if b then 1 else 0 }

  lemma {:induction false} BumpStagesShows(m: map<Stage, nat>, n: nat, s: Stage)
    requires n <= |STAGE_ORDER|
    ensures At(BumpStages(m, n), s) == At(m, s) + One(Rank(s) < n)
  {
    if n > 0 {
      BumpStagesShows(m, n - 1, s);
      OrderMatchesRank(n - 1);
    }
  }

  lemma {:induction false} DropStagesShows(m: map<Stage, nat>, n: nat, s: Stage)
    requires n <= |STAGE_ORDER| && (Rank(s) < n ==> At(m, s) > 0)
    ensures At(DropStages(m, n), s) == At(m, s) - One(Rank(s) < n)
  {
    if n > 0 {
      DropStagesShows(m, n - 1, s);
      OrderMatchesRank(n - 1);
    }
  }

  lemma OrderMatchesRank(i: nat)
    requires i < |STAGE_ORDER|
    ensures Rank(STAGE_ORDER[i]) == i
    ensures forall s :: Rank(s) == i ==> s == STAGE_ORDER[i]
  {
  }

  lemma CountedShows(c: Counts, o: Observation, f: Feature)
    ensures Shown(Counted(c, o), f) == Shown(c, f) + One(Has(o, f))
  {
    if f.Reached? {
      BumpStagesShows(c.stages, Rank(o.stage) + 1, f.stage);
    }
  }

  /** Taking an observation out again undoes exactly what counting it did. */
  lemma RetractedShows(c: Counts, o: Observation, f: Feature)
    requires Has(o, f) ==> Shown(c, f) > 0
    requires o.stage != FilledStage
    ensures Shown(Retracted(c, o), f) == Shown(c, f) - One(Has(o, f))
  {
    if f.Reached? {
      DropStagesShows(c.stages, Rank(o.stage) + 1, f.stage);
    }
  }

  lemma RecountAppend(log: seq<Observation>, o: Observation, scope: Scope, f: Feature)
    ensures Recount(log + [o], scope, f) == Recount(log, scope, f) + One(In(o, scope) && Has(o, f))
  {
    assert (log + [o])[..|log|] == log;
  }

  lemma {:induction false} RecountReplace(log: seq<Observation>, i: nat, o: Observation, scope: Scope, f: Feature)
    requires i < |log|
    ensures Recount(log[i := o], scope, f) ==
            Recount(log, scope, f) - One(In(log[i], scope) && Has(log[i], f)) + One(In(o, scope) && Has(o, f))
  {
    var n := |log| - 1;
    if i == n {
      assert log[i := o][..n] == log[..n];
    } else {
      assert log[i := o][..n] == log[..n][i := o];
      RecountReplace(log[..n], i, o, scope, f);
    }
  }

  lemma {:induction false} RecountPositive(log: seq<Observation>, i: nat, scope: Scope, f: Feature)
    requires i < |log| && In(log[i], scope) && Has(log[i], f)
    ensures Recount(log, scope, f) > 0
  {
    if i < |log| - 1 {
      RecountPositive(log[..|log| - 1], i, scope, f);
    }
  }

  // ----- the funnel -----

  datatype Funnel = Funnel(
    totals: Counts, bySymbol: map<string, Counts>, byStrategy: map<string, Counts>,
    reasons: map<Gate, map<string, nat>>, pending: Dict<Observation>)

  const EMPTY := Funnel(NO_COUNTS, map[], map[], map[], [])

  function CountsAt(m: map<string, Counts>, k: string): Counts { if k in m then m[k] else NO_COUNTS }

  function ReasonsAt(m: map<Gate, map<string, nat>>, g: Gate): map<string, nat> { if g in m then m[g] else map[] }

  function ReasonKey(m: map<string, nat>, reason: string): string {
    if reason in m || |m| < MAX_REASON_KEYS then reason else OVERFLOW_KEY
  }

  function BumpReasons(m: map<string, nat>, reasons: seq<string>): map<string, nat> {
    if reasons == [] then m
    else
      var before := BumpReasons(m, reasons[..|reasons| - 1]);
      Bump(before, ReasonKey(before, reasons[|reasons| - 1]))
  }

  function DropReasons(m: map<string, nat>, reasons: seq<string>): map<string, nat> {
    if reasons == [] then m
    else Decrement(DropReasons(m, reasons[..|reasons| - 1]), reasons[|reasons| - 1])
  }

  /** An order handed onward that may still fill. */
  predicate Awaited(o: Observation) {
    o.decisionId.Some? && o.gate == Some(FillGate) && PENDING_REASON in o.reasons
  }

  function Added(f: Funnel, o: Observation): Funnel {
    Funnel(
      Counted(f.totals, o),
      f.bySymbol[o.symbol := Counted(CountsAt(f.bySymbol, o.symbol), o)],
      if o.strategyId.None? then f.byStrategy
      else f.byStrategy[o.strategyId.value := Counted(CountsAt(f.byStrategy, o.strategyId.value), o)],
      if o.gate.None? then f.reasons
      else f.reasons[o.gate.value := BumpReasons(ReasonsAt(f.reasons, o.gate.value), Or(o.reasons, ["(unspecified)"]))],
      if Awaited(o) && |f.pending| < MAX_PENDING then Put(f.pending, o.decisionId.value, o) else f.pending)
  }

  function RetractedAt(m: map<string, Counts>, k: string, o: Observation): map<string, Counts> {
    if k in m then m[k := Retracted(m[k], o)] else m
  }

  /** An absent strategy is looked up under the empty name. */
  function Uncounted(f: Funnel, o: Observation): Funnel {
    f.(totals := Retracted(f.totals, o),
       bySymbol := RetractedAt(f.bySymbol, o.symbol, o),
       byStrategy := RetractedAt(f.byStrategy, o.strategyId.GetOr(""), o),
       reasons := if o.gate.Some? && o.gate.value in f.reasons
                  then f.reasons[o.gate.value := DropReasons(f.reasons[o.gate.value], o.reasons)]
                  else f.reasons)
  }

  function Fulfilled(o: Observation): Observation {
    o.(stage := FilledStage, gate := None, category := FilledCategory, reasons := ["ledger_filled"])
  }

  function Promoted(f: Funnel, d: string, o: Observation): Funnel {
    var retracted := Uncounted(f, o);
    Added(retracted.(pending := Remove(f.pending, d)), Fulfilled(o))
  }

  predicate FilledIn(orders: Dict<L.Order>, decisionId: string) {
    exists o :: o in L.OrdersForDecision(orders, decisionId) && o.state == L.Filled
  }

  /** `entries` is the pending dictionary as it stood when the pass began, from some point on. */
  function Applied(f: Funnel, orders: Dict<L.Order>, entries: Dict<Observation>): Funnel
    decreases |entries|
  {
    if entries == [] then f
    else
      var (d, o) := entries[0];
      Applied(if FilledIn(orders, d) then Promoted(f, d, o) else f, orders, entries[1..])
  }

  function FilledAmong(orders: Dict<L.Order>, entries: Dict<Observation>): nat
    decreases |entries|
  {
    if entries == [] then 0 else (if FilledIn(orders, entries[0].0) then 1 else 0) + FilledAmong(orders, entries[1..])
  }

  // ----- runs -----

  datatype Event = Observe(cycle: Cycle, ledger: Option<Dict<L.Order>>) | ApplyLedger(orders: Dict<L.Order>)

  /** A cycle is recorded as filled outright when the ledger already shows its decision filled. */
  function Observed(c: Cycle, ledger: Option<Dict<L.Order>>): (o: Observation)
    ensures Classified(o)
  {
    Classify(c, if ledger.Some? && c.proposal.Some? && c.hasOrder && FilledIn(ledger.value, c.proposal.value.1)
                then Some(true) else None)
  }

  function Step(f: Funnel, e: Event): Funnel {
    match e
    case Observe(c, ledger) => Added(f, Observed(c, ledger))
    case ApplyLedger(orders) => Applied(f, orders, f.pending)
  }

  function Run(events: seq<Event>): Funnel {
    if events == [] then EMPTY else Step(Run(events[..|events| - 1]), events[|events| - 1])
  }

  /** The log with the last occurrence of `o` replaced by its filled version. */
  function Amended(log: seq<Observation>, o: Observation): seq<Observation> {
    if log == [] then []
    else if log[|log| - 1] == o then log[..|log| - 1] + [Fulfilled(o)]
    else Amended(log[..|log| - 1], o) + [log[|log| - 1]]
  }

  function AmendedAll(log: seq<Observation>, orders: Dict<L.Order>, entries: Dict<Observation>): seq<Observation>
    decreases |entries|
  {
    if entries == [] then log
    else AmendedAll(if FilledIn(orders, entries[0].0) then Amended(log, entries[0].1) else log, orders, entries[1..])
  }

  /** Every observation of the run, one per cycle, each promoted one in its filled version. */
  function Log(events: seq<Event>): seq<Observation> {
    if events == [] then []
    else
      var before, e := events[..|events| - 1], events[|events| - 1];
      match e
      case Observe(c, ledger) => Log(before) + [Observed(c, ledger)]
      case ApplyLedger(orders) => AmendedAll(Log(before), orders, Run(before).pending)
  }

  function CountsFor(f: Funnel, scope: Scope): Counts {
    match scope
    case Everything => f.totals
    case OfSymbol(s) => CountsAt(f.bySymbol, s)
    case OfStrategy(s) => CountsAt(f.byStrategy, s)
  }

  ghost predicate PendingIn(pending: Dict<Observation>, log: seq<Observation>) {
    && Distinct(pending) && |pending| <= MAX_PENDING
    && forall i :: 0 <= i < |pending| ==> IsPending(pending[i], log)
  }

  ghost predicate IsPending(entry: (string, Observation), log: seq<Observation>) {
    entry.1.decisionId == Some(entry.0) && entry.1 in log && Awaited(entry.1) && Classified(entry.1)
  }

  ghost predicate Bounded(m: map<string, nat>) {
    |m.Keys - {OVERFLOW_KEY}| <= MAX_REASON_KEYS
  }

  ghost predicate ReasonsBounded(f: Funnel) {
    forall g :: Bounded(ReasonsAt(f.reasons, g))
  }

  ghost predicate CountersTally(f: Funnel, log: seq<Observation>) {
    forall scope :: Tallies(CountsFor(f, scope), log, scope)
  }

  ghost predicate Inv(f: Funnel, log: seq<Observation>) {
    && CountersTally(f, log)
    && PendingIn(f.pending, log)
    && (forall o :: o in log ==> Classified(o))
    && ReasonsBounded(f)
  }

  lemma AddedCounts(f: Funnel, log: seq<Observation>, o: Observation)
    requires CountersTally(f, log)
    ensures CountersTally(Added(f, o), log + [o])
  {
    forall scope, x
      ensures Shown(CountsFor(Added(f, o), scope), x) == Recount(log + [o], scope, x)
    {
      assert Tallies(CountsFor(f, scope), log, scope);
      AddedFor(f, o, scope);
      TalliesAppend(CountsFor(f, scope), log, o, scope, x);
    }
  }

  lemma TalliesAppend(c: Counts, log: seq<Observation>, o: Observation, scope: Scope, x: Feature)
    requires Tallies(c, log, scope)
    ensures Shown(if In(o, scope) then Counted(c, o) else c, x) == Recount(log + [o], scope, x)
  {
    RecountAppend(log, o, scope, x);
    CountedShows(c, o, x);
  }

  lemma UncountedCounts(f: Funnel, log: seq<Observation>, i: nat, scope: Scope, x: Feature)
    requires CountersTally(f, log) && i < |log| && log[i].strategyId.Some? && log[i].stage != FilledStage
    ensures Shown(CountsFor(Uncounted(f, log[i]), scope), x) ==
            Recount(log, scope, x) - One(In(log[i], scope) && Has(log[i], x))
  {
    var o := log[i];
    assert Tallies(CountsFor(f, scope), log, scope);
    if In(o, scope) {
      RecountPositive(log, i, scope, FellIn(o.category));
      if Has(o, x) {
        RecountPositive(log, i, scope, x);
      }
      RetractedShows(CountsFor(f, scope), o, x);
    }
  }

  lemma AddedFor(f: Funnel, o: Observation, scope: Scope)
    ensures CountsFor(Added(f, o), scope) == if In(o, scope) then Counted(CountsFor(f, scope), o)
        else CountsFor(f, scope)
  {
  }

  lemma PromotedCountsAt(f: Funnel, log: seq<Observation>, i: nat, d: string, scope: Scope, x: Feature)
    requires CountersTally(f, log) && i < |log| && log[i].strategyId.Some? && log[i].stage != FilledStage
    ensures Shown(CountsFor(Promoted(f, d, log[i]), scope), x) == Recount(log[i := Fulfilled(log[i])], scope, x)
  {
    var o := log[i];
    var g := Uncounted(f, o).(pending := Remove(f.pending, d));
    assert CountsFor(g, scope) == CountsFor(Uncounted(f, o), scope);
    UncountedCounts(f, log, i, scope, x);
    RecountReplace(log, i, Fulfilled(o), scope, x);
    AddedFor(g, Fulfilled(o), scope);
    CountedShows(CountsFor(g, scope), Fulfilled(o), x);
    assert In(Fulfilled(o), scope) == In(o, scope);
  }

  /** Promotion turns the counters of a log into those of the log with one entry replaced. */
  lemma PromotedCounts(f: Funnel, log: seq<Observation>, i: nat, d: string)
    requires CountersTally(f, log) && i < |log| && log[i].strategyId.Some? && log[i].stage != FilledStage
    ensures CountersTally(Promoted(f, d, log[i]), log[i := Fulfilled(log[i])])
  {
    forall scope, x
      ensures Shown(CountsFor(Promoted(f, d, log[i]), scope), x) == Recount(log[i := Fulfilled(log[i])], scope, x)
    {
      PromotedCountsAt(f, log, i, d, scope, x);
    }
  }

  lemma {:induction false} AmendedAt(log: seq<Observation>, o: Observation) returns (i: nat)
    requires o in log
    ensures i < |log| && log[i] == o && Amended(log, o) == log[i := Fulfilled(o)]
  {
    var n := |log| - 1;
    if log[n] == o {
      i := n;
    } else {
      assert log == log[..n] + [log[n]];
      i := AmendedAt(log[..n], o);
    }
  }

  // ----- reasons stay bounded -----

  lemma KeyAdded(keys: set<string>, k: string, other: string, cap: nat)
    requires |keys - {other}| <= cap
    requires k in keys || k == other || |keys| < cap
    ensures |(keys + {k}) - {other}| <= cap
  {
    if k in keys || k == other {
      assert (keys + {k}) - {other} == keys - {other};
    } else {
      assert (keys + {k}) - {other} == (keys - {other}) + {k};
      Shrinks(keys - {other}, keys);
    }
  }

  lemma BumpBounded(m: map<string, nat>, reason: string)
    requires Bounded(m)
    ensures Bounded(Bump(m, ReasonKey(m, reason)))
  {
    var k := ReasonKey(m, reason);
    assert Bump(m, k).Keys == m.Keys + {k};
    KeyAdded(m.Keys, k, OVERFLOW_KEY, MAX_REASON_KEYS);
  }

  lemma Shrinks(a: set<string>, b: set<string>)
    requires a <= b
    ensures |a| <= |b|
  {
    assert b == a + (b - a);
  }

  lemma {:induction false} BumpReasonsBounded(m: map<string, nat>, reasons: seq<string>)
    requires Bounded(m)
    ensures Bounded(BumpReasons(m, reasons))
  {
    if reasons != [] {
      BumpReasonsBounded(m, reasons[..|reasons| - 1]);
      BumpBounded(BumpReasons(m, reasons[..|reasons| - 1]), reasons[|reasons| - 1]);
    }
  }

  lemma {:induction false} DropReasonsBounded(m: map<string, nat>, reasons: seq<string>)
    requires Bounded(m)
    ensures Bounded(DropReasons(m, reasons))
  {
    if reasons != [] {
      DropReasonsBounded(m, reasons[..|reasons| - 1]);
      var before := DropReasons(m, reasons[..|reasons| - 1]);
      Shrinks(Decrement(before, reasons[|reasons| - 1]).Keys - {OVERFLOW_KEY}, before.Keys - {OVERFLOW_KEY});
    }
  }

  lemma AddedReasons(f: Funnel, o: Observation)
    requires ReasonsBounded(f)
    ensures ReasonsBounded(Added(f, o))
  {
    forall g
      ensures Bounded(ReasonsAt(Added(f, o).reasons, g))
    {
      assert Bounded(ReasonsAt(f.reasons, g));
      BumpReasonsBounded(ReasonsAt(f.reasons, g), Or(o.reasons, ["(unspecified)"]));
    }
  }

  lemma UncountedReasons(f: Funnel, o: Observation)
    requires ReasonsBounded(f)
    ensures ReasonsBounded(Uncounted(f, o))
  {
    forall g
      ensures Bounded(ReasonsAt(Uncounted(f, o).reasons, g))
    {
      assert Bounded(ReasonsAt(f.reasons, g));
      DropReasonsBounded(ReasonsAt(f.reasons, g), o.reasons);
    }
  }

  // ----- every step keeps the invariant -----

  lemma AddedPending(f: Funnel, log: seq<Observation>, o: Observation)
    requires PendingIn(f.pending, log) && Classified(o)
    ensures PendingIn(Added(f, o).pending, log + [o])
  {
    assert forall i :: 0 <= i < |f.pending| ==> IsPending(f.pending[i], log + [o]);
    if Awaited(o) && |f.pending| < MAX_PENDING {
      PutDistinct(f.pending, o.decisionId.value, o);
      PutAt(f.pending, o.decisionId.value, o);
      assert IsPending((o.decisionId.value, o), log + [o]);
    }
  }

  lemma AddedKeeps(f: Funnel, log: seq<Observation>, o: Observation)
    requires Inv(f, log) && Classified(o)
    ensures Inv(Added(f, o), log + [o])
  {
    AddedCounts(f, log, o);
    AddedPending(f, log, o);
    AddedReasons(f, o);
  }

  lemma AmendedPending(pending: Dict<Observation>, log: seq<Observation>, i: nat, d: string)
    requires PendingIn(pending, log) && i < |log| && log[i].decisionId == Some(d)
    ensures PendingIn(Remove(pending, d), log[i := Fulfilled(log[i])])
  {
    RemoveAt(pending, d);
    var log' := log[i := Fulfilled(log[i])];
    forall k | 0 <= k < |Remove(pending, d)|
      ensures IsPending(Remove(pending, d)[k], log')
    {
      var j := RemoveKeeps(pending, d, k);
      assert IsPending(pending[j], log);
      var m :| 0 <= m < |log| && log[m] == pending[j].1;
      assert log'[m] == log[m];
    }
  }

  lemma PromotedKeeps(f: Funnel, log: seq<Observation>, d: string, o: Observation)
    requires Inv(f, log) && IsPending((d, o), log)
    ensures Inv(Promoted(f, d, o), Amended(log, o))
    ensures Promoted(f, d, o).pending == Remove(f.pending, d)
  {
    var i := AmendedAt(log, o);
    PromotedCounts(f, log, i, d);
    AmendedPending(f.pending, log, i, d);
    PromotedReasons(f, d, o);
  }

  lemma PromotedReasons(f: Funnel, d: string, o: Observation)
    requires ReasonsBounded(f)
    ensures ReasonsBounded(Promoted(f, d, o)) && Promoted(f, d, o).pending == Remove(f.pending, d)
  {
    UncountedReasons(f, o);
    var g := Uncounted(f, o).(pending := Remove(f.pending, d));
    assert ReasonsBounded(g) by {
      assert g.reasons == Uncounted(f, o).reasons;
    }
    AddedReasons(g, Fulfilled(o));
  }

  /** What is left of the pass: entries still pending, each under its own key. */
  ghost predicate StillPending(entries: Dict<Observation>, pending: Dict<Observation>) {
    Distinct(entries) && forall i :: 0 <= i < |entries| ==> entries[i] in pending
  }

  lemma {:induction false} RemoveTakesOne(d: Dict<Observation>, e: (string, Observation))
    requires e in d
    ensures |Remove(d, e.0)| == |d| - 1
  {
    if d[0].0 != e.0 {
      assert d == [d[0]] + d[1..];
      RemoveTakesOne(d[1..], e);
    }
  }

  lemma {:induction false} RemoveLeaves(d: Dict<Observation>, k: string, e: (string, Observation))
    requires e in d && e.0 != k
    ensures e in Remove(d, k)
  {
    if d[0].0 != k && d[0] != e {
      assert d == [d[0]] + d[1..];
      RemoveLeaves(d[1..], k, e);
    } else if d[0].0 == k {
      assert d == [d[0]] + d[1..];
    }
  }

  lemma PassContinues(entries: Dict<Observation>, pending: Dict<Observation>)
    requires entries != [] && StillPending(entries, pending)
    ensures StillPending(entries[1..], pending)
    ensures StillPending(entries[1..], Remove(pending, entries[0].0))
  {
    forall i | 0 <= i < |entries| - 1
      ensures entries[1..][i] in Remove(pending, entries[0].0)
    {
      assert entries[1..][i] == entries[i + 1];
      RemoveLeaves(pending, entries[0].0, entries[i + 1]);
    }
  }

  lemma {:induction false} AppliedKeeps(f: Funnel, log: seq<Observation>, orders: Dict<L.Order>,
                                        entries: Dict<Observation>)
    requires Inv(f, log) && StillPending(entries, f.pending)
    ensures Inv(Applied(f, orders, entries), AmendedAll(log, orders, entries))
    ensures |Applied(f, orders, entries).pending| == |f.pending| - FilledAmong(orders, entries)
    decreases |entries|
  {
    if entries != [] {
      var (d, o) := entries[0];
      PassContinues(entries, f.pending);
      if FilledIn(orders, d) {
        var k :| 0 <= k < |f.pending| && f.pending[k] == (d, o);
        assert IsPending(f.pending[k], log);
        PromotedKeeps(f, log, d, o);
        RemoveTakesOne(f.pending, (d, o));
        AppliedKeeps(Promoted(f, d, o), Amended(log, o), orders, entries[1..]);
      } else {
        AppliedKeeps(f, log, orders, entries[1..]);
      }
    }
  }

  lemma {:induction false} InvAlways(events: seq<Event>)
    ensures Inv(Run(events), Log(events))
  {
    if events != [] {
      var before, e := events[..|events| - 1], events[|events| - 1];
      InvAlways(before);
      match e
      case Observe(c, ledger) => AddedKeeps(Run(before), Log(before), Observed(c, ledger));
      case ApplyLedger(orders) => AppliedKeeps(Run(before), Log(before), orders, Run(before).pending);
    }
  }

  // ----- what the report then says -----

  lemma {:induction false} RecountNarrows(log: seq<Observation>, scope: Scope, s: Stage, t: Stage)
    requires Rank(s) <= Rank(t)
    ensures Recount(log, scope, Reached(t)) <= Recount(log, scope, Reached(s))
  {
    if log != [] {
      RecountNarrows(log[..|log| - 1], scope, s, t);
    }
  }

  lemma {:induction false} RecountAddsUp(log: seq<Observation>, scope: Scope)
    requires forall o :: o in log ==> Classified(o)
    ensures Recount(log, scope, FellIn(NoOpportunity)) + Recount(log, scope, FellIn(OpportunityRejected))
            + Recount(log, scope, FellIn(FillUnavailable)) + Recount(log, scope, FellIn(FilledCategory))
            == Recount(log, scope, Reached(AnyCycle))
    ensures Recount(log, scope, FellIn(FilledCategory)) == Recount(log, scope, Reached(FilledStage))
  {
    if log != [] {
      var before, o := log[..|log| - 1], log[|log| - 1];
      assert Classified(o);
      RecountAddsUp(before, scope);
    }
  }

  /** The classified observations of the run, before any promotion. */
  function Observations(events: seq<Event>): seq<Observation> {
    if events == [] then []
    else
      var before, e := events[..|events| - 1], events[|events| - 1];
      Observations(before) + (if e.Observe? then [Observed(e.cycle, e.ledger)] else [])
  }

  /** The log is the list of observations with some of the awaited ones filled. */
  ghost predicate Promotes(log: seq<Observation>, base: seq<Observation>) {
    |log| == |base| && forall i :: 0 <= i < |log| ==> SameOrFilled(log[i], base[i])
  }

  predicate SameOrFilled(o: Observation, was: Observation) {
    o == was || (o == Fulfilled(was) && Awaited(was))
  }

  lemma {:induction false} AmendedAllPromotes(f: Funnel, log: seq<Observation>, orders: Dict<L.Order>,
                                              entries: Dict<Observation>, base: seq<Observation>)
    requires Inv(f, log) && StillPending(entries, f.pending) && Promotes(log, base)
    ensures Promotes(AmendedAll(log, orders, entries), base)
    decreases |entries|
  {
    if entries != [] {
      var (d, o) := entries[0];
      PassContinues(entries, f.pending);
      if FilledIn(orders, d) {
        var k :| 0 <= k < |f.pending| && f.pending[k] == (d, o);
        assert IsPending(f.pending[k], log);
        PromotedKeeps(f, log, d, o);
        var i := AmendedAt(log, o);
        assert SameOrFilled(log[i], base[i]);
        AmendedAllPromotes(Promoted(f, d, o), Amended(log, o), orders, entries[1..], base);
      } else {
        AmendedAllPromotes(f, log, orders, entries[1..], base);
      }
    }
  }

  lemma {:induction false} LogPromotes(events: seq<Event>)
    ensures Promotes(Log(events), Observations(events))
  {
    if events != [] {
      var before, e := events[..|events| - 1], events[|events| - 1];
      LogPromotes(before);
      InvAlways(before);
      if e.ApplyLedger? {
        AmendedAllPromotes(Run(before), Log(before), e.orders, Run(before).pending, Observations(before));
      }
    }
  }

  /** Over every run the incremental counters are a plain recount of the run's observations, one per
      cycle, each promoted one counted in its filled version only; the funnel narrows, its outcomes
      add up to its cycles, and what it remembers stays bounded. */
  lemma FunnelOverEveryRun(events: seq<Event>, scope: Scope)
    ensures Promotes(Log(events), Observations(events))
    ensures Tallies(CountsFor(Run(events), scope), Log(events), scope)
    ensures var c := CountsFor(Run(events), scope);
            && (forall s, t :: Rank(s) <= Rank(t) ==> At(c.stages, t) <= At(c.stages, s))
            && At(c.categories, NoOpportunity) + At(c.categories, OpportunityRejected)
               + At(c.categories, FillUnavailable) + At(c.categories, FilledCategory) == At(c.stages, AnyCycle)
            && At(c.categories, FilledCategory) == At(c.stages, FilledStage)
    ensures ReasonsBounded(Run(events)) && |Run(events).pending| <= MAX_PENDING
  {
    LogPromotes(events);
    InvAlways(events);
    RecountAddsUp(Log(events), scope);
    forall s, t | Rank(s) <= Rank(t)
      ensures Recount(Log(events), scope, Reached(t)) <= Recount(Log(events), scope, Reached(s))
    {
      RecountNarrows(Log(events), scope, s, t);
    }
    var c := CountsFor(Run(events), scope);
    assert Tallies(c, Log(events), scope);
    assert forall s :: At(c.stages, s) == Shown(c, Reached(s));
    assert forall k :: At(c.categories, k) == Shown(c, FellIn(k));
  }

  // ----- which observations are promoted -----

  /** The log told from the events alone: a ledger pass fills whatever is awaited and shown filled. */
  function Expected(events: seq<Event>): seq<Observation> {
    if events == [] then []
    else
      var before, e := Expected(events[..|events| - 1]), events[|events| - 1];
      match e
      case Observe(c, ledger) => before + [Observed(c, ledger)]
      case ApplyLedger(orders) => Passed(before, orders)
  }

  function Passed(log: seq<Observation>, orders: Dict<L.Order>): seq<Observation> {
    if log == [] then []
    else Passed(log[..|log| - 1], orders) + [PassedOne(log[|log| - 1], orders)]
  }

  function PassedOne(o: Observation, orders: Dict<L.Order>): Observation {
    if Awaited(o) && FilledIn(orders, o.decisionId.value) then Fulfilled(o) else o
  }

  /** The awaited observations of a log, under their decisions. */
  function AwaitedIn(log: seq<Observation>): Dict<Observation> {
    if log == [] then []
    else
      var o := log[|log| - 1];
      AwaitedIn(log[..|log| - 1]) + (if Awaited(o) then [(o.decisionId.value, o)] else [])
  }

  function Unfilled(entries: Dict<Observation>, orders: Dict<L.Order>): Dict<Observation>
    decreases |entries|
  {
    if entries == [] then []
    else if FilledIn(orders, entries[0].0) then Unfilled(entries[1..], orders)
    else [entries[0]] + Unfilled(entries[1..], orders)
  }

  /** No decision is awaited twice at once, and never more than the pending list holds. */
  ghost predicate Roomy(events: seq<Event>) {
    forall n: nat :: n <= |events| ==> RoomyAt(Expected(events[..n]))
  }

  ghost predicate RoomyAt(log: seq<Observation>) { Distinct(AwaitedIn(log)) && |AwaitedIn(log)| <= MAX_PENDING }

  lemma {:induction false} RemoveFromEnd(kept: Dict<Observation>, rest: Dict<Observation>)
    requires rest != [] && Distinct(kept + rest)
    ensures Remove(kept + rest, rest[0].0) == kept + rest[1..]
  {
    if kept == [] {
      assert kept + rest == rest;
    } else {
      assert (kept + rest)[0] == kept[0] && (kept + rest)[|kept|] == rest[0];
      assert (kept + rest)[1..] == kept[1..] + rest;
      assert forall i :: 0 <= i < |kept[1..] + rest| ==> (kept[1..] + rest)[i] == (kept + rest)[i + 1];
      RemoveFromEnd(kept[1..], rest);
    }
  }

  lemma PromotedPending(f: Funnel, d: string, o: Observation)
    ensures Promoted(f, d, o).pending == Remove(f.pending, d)
  {
  }

  /** The pending list after a pass, each filled entry taken out in turn. */
  function Settled(pending: Dict<Observation>, orders: Dict<L.Order>, entries: Dict<Observation>): Dict<Observation>
    decreases |entries|
  {
    if entries == [] then pending
    else Settled(if FilledIn(orders, entries[0].0) then Remove(pending, entries[0].0) else pending, orders,
                 entries[1..])
  }

  lemma {:induction false} AppliedSettles(f: Funnel, orders: Dict<L.Order>, entries: Dict<Observation>)
    ensures Applied(f, orders, entries).pending == Settled(f.pending, orders, entries)
    decreases |entries|
  {
    if entries != [] {
      var (d, o) := entries[0];
      PromotedPending(f, d, o);
      AppliedSettles(if FilledIn(orders, d) then Promoted(f, d, o) else f, orders, entries[1..]);
    }
  }

  /** A pass leaves the entries it has kept and, of the rest, those not shown filled. */
  lemma {:induction false} PassKeepsUnfilled(kept: Dict<Observation>, orders: Dict<L.Order>, entries: Dict<Observation>)
    requires Distinct(kept + entries)
    ensures Settled(kept + entries, orders, entries) == kept + Unfilled(entries, orders)
    decreases |entries|
  {
    if entries != [] {
      if FilledIn(orders, entries[0].0) {
        RemoveFromEnd(kept, entries);
        RemoveAt(kept + entries, entries[0].0);
        PassKeepsUnfilled(kept, orders, entries[1..]);
      } else {
        assert kept + entries == (kept + [entries[0]]) + entries[1..];
        PassKeepsUnfilled(kept + [entries[0]], orders, entries[1..]);
      }
    }
  }

  lemma {:induction false} UnfilledAppend(a: Dict<Observation>, b: Dict<Observation>, orders: Dict<L.Order>)
    ensures Unfilled(a + b, orders) == Unfilled(a, orders) + Unfilled(b, orders)
    decreases |a|
  {
    if a == [] {
      assert a + b == b;
    } else {
      assert (a + b)[1..] == a[1..] + b;
      UnfilledAppend(a[1..], b, orders);
    }
  }

  /** What is awaited after a pass is what was awaited and is not shown filled. */
  lemma {:induction false} PassedAwaits(log: seq<Observation>, orders: Dict<L.Order>)
    ensures AwaitedIn(Passed(log, orders)) == Unfilled(AwaitedIn(log), orders)
    ensures |Passed(log, orders)| == |log|
  {
    if log != [] {
      var n := |log| - 1;
      var (o, p) := (log[n], PassedOne(log[n], orders));
      PassedAwaits(log[..n], orders);
      assert Passed(log, orders)[..n] == Passed(log[..n], orders);
      var last := if Awaited(o) then [(o.decisionId.value, o)] else [];
      UnfilledAppend(AwaitedIn(log[..n]), last, orders);
      if Awaited(o) {
        assert last[1..] == [];
        assert Unfilled(last, orders) == if FilledIn(orders, o.decisionId.value) then [] else last;
      }
    }
  }

  lemma {:induction false} AwaitedInHolds(log: seq<Observation>, i: nat)
    requires i < |log| && Awaited(log[i])
    ensures (log[i].decisionId.value, log[i]) in AwaitedIn(log)
  {
    if i < |log| - 1 {
      AwaitedInHolds(log[..|log| - 1], i);
    }
  }

  /** One observation is amended by exactly the pass entry that is it. */
  ghost predicate AmendedTo(o: Observation, o': Observation, orders: Dict<L.Order>, entries: Dict<Observation>) {
    o' == if Awaited(o) && (o.decisionId.value, o) in entries && FilledIn(orders, o.decisionId.value) then Fulfilled(o)
        else o
  }

  /** Awaited observations differ in their decisions. */
  ghost predicate OncePerDecision(log: seq<Observation>) {
    forall i, j :: 0 <= i < j < |log| && Awaited(log[i]) && Awaited(log[j]) ==> log[i].decisionId != log[j].decisionId
  }

  lemma {:induction false} DistinctIsOnce(log: seq<Observation>)
    requires Distinct(AwaitedIn(log))
    ensures OncePerDecision(log)
  {
    if log != [] {
      var (n, front) := (|log| - 1, AwaitedIn(log[..|log| - 1]));
      assert AwaitedIn(log)[..|front|] == front;
      assert forall i :: 0 <= i < |front| ==> front[i] == AwaitedIn(log)[i];
      DistinctIsOnce(log[..n]);
      forall i | 0 <= i < n && Awaited(log[i]) && Awaited(log[n])
        ensures log[i].decisionId != log[n].decisionId
      {
        AwaitedInHolds(log[..n], i);
        var k :| 0 <= k < |front| && front[k] == (log[i].decisionId.value, log[i]);
        assert AwaitedIn(log)[k] == front[k] && AwaitedIn(log)[|front|] == (log[n].decisionId.value, log[n]);
      }
    }
  }

  /** The pass entries are awaited observations of the log. */
  ghost predicate FromLog(entries: Dict<Observation>, log: seq<Observation>) {
    forall k :: 0 <= k < |entries| ==> IsPending(entries[k], log)
  }

  lemma {:induction false} AmendedAllAt(log: seq<Observation>, orders: Dict<L.Order>, entries: Dict<Observation>)
    requires OncePerDecision(log) && FromLog(entries, log) && Distinct(entries)
    ensures |AmendedAll(log, orders, entries)| == |log|
    ensures forall i :: 0 <= i < |log| ==> AmendedTo(log[i], AmendedAll(log, orders, entries)[i], orders, entries)
    decreases |entries|
  {
    if entries != [] {
      var ((d, o), rest) := (entries[0], entries[1..]);
      assert IsPending(entries[0], log);
      assert entries == [entries[0]] + rest;
      if FilledIn(orders, d) {
        var n := AmendedAt(log, o);
        var log' := log[n := Fulfilled(o)];
        AmendedStaysOnce(log, n, rest);
        AmendedAllAt(log', orders, rest);
        forall i | 0 <= i < |log|
          ensures AmendedTo(log[i], AmendedAll(log, orders, entries)[i], orders, entries)
        {
          assert AmendedTo(log'[i], AmendedAll(log', orders, rest)[i], orders, rest);
        }
      } else {
        forall k | 0 <= k < |rest|
          ensures IsPending(rest[k], log)
        {
          assert rest[k] == entries[k + 1];
        }
        AmendedAllAt(log, orders, rest);
        forall i | 0 <= i < |log|
          ensures AmendedTo(log[i], AmendedAll(log, orders, entries)[i], orders, entries)
        {
          assert AmendedTo(log[i], AmendedAll(log, orders, rest)[i], orders, rest);
        }
      }
    }
  }

  lemma AmendedStaysOnce(log: seq<Observation>, n: nat, rest: Dict<Observation>)
    requires OncePerDecision(log) && n < |log|
    requires forall k :: 0 <= k < |rest| ==> IsPending(rest[k], log) && rest[k].1 != log[n]
    ensures OncePerDecision(log[n := Fulfilled(log[n])]) && FromLog(rest, log[n := Fulfilled(log[n])])
  {
    var log' := log[n := Fulfilled(log[n])];
    forall k | 0 <= k < |rest|
      ensures IsPending(rest[k], log')
    {
      var i :| 0 <= i < |log| && log[i] == rest[k].1;
      assert log'[i] == log[i];
    }
  }

  lemma {:induction false} PassedAt(log: seq<Observation>, orders: Dict<L.Order>, i: nat)
    requires i < |log|
    ensures |Passed(log, orders)| == |log| && Passed(log, orders)[i] == PassedOne(log[i], orders)
  {
    var n := |log| - 1;
    if i < n {
      PassedAt(log[..n], orders, i);
    } else if n > 0 {
      PassedAt(log[..n], orders, 0);
    }
  }

  /** When the pending list is what the log awaits, a pass amends what the plain pass fills. */
  lemma PassMatches(log: seq<Observation>, orders: Dict<L.Order>)
    requires PendingIn(AwaitedIn(log), log)
    ensures AmendedAll(log, orders, AwaitedIn(log)) == Passed(log, orders)
  {
    DistinctIsOnce(log);
    AmendedAllAt(log, orders, AwaitedIn(log));
    var amended := AmendedAll(log, orders, AwaitedIn(log));
    forall i | 0 <= i < |log|
      ensures |Passed(log, orders)| == |log| && amended[i] == Passed(log, orders)[i]
    {
      PassedAt(log, orders, i);
      assert AmendedTo(log[i], amended[i], orders, AwaitedIn(log));
      if Awaited(log[i]) {
        AwaitedInHolds(log, i);
      }
    }
    PassedAwaits(log, orders);
  }

  lemma {:induction false} LastIsNew(d: Dict<Observation>, k: string, o: Observation)
    requires Distinct(d + [(k, o)])
    ensures Get(d, k).None?
  {
    if d != [] {
      var whole := d + [(k, o)];
      assert whole[0].0 != whole[|d|].0;
      assert forall i :: 0 <= i < |d[1..] + [(k, o)]| ==> (d[1..] + [(k, o)])[i] == whole[i + 1];
      LastIsNew(d[1..], k, o);
    }
  }

  lemma AddedAwaits(f: Funnel, log: seq<Observation>, o: Observation)
    requires f.pending == AwaitedIn(log) && RoomyAt(log + [o])
    ensures Added(f, o).pending == AwaitedIn(log + [o])
  {
    assert (log + [o])[..|log|] == log;
    if Awaited(o) {
      var d := o.decisionId.value;
      assert AwaitedIn(log + [o]) == f.pending + [(d, o)];
      LastIsNew(f.pending, d, o);
      PutAt(f.pending, d, o);
    }
  }

  /** While no decision is awaited twice at once and the pending list has room, the funnel's log is the
      one told from the events alone: an observation is promoted exactly when it is awaited and a later
      ledger pass shows its decision filled. */
  lemma {:induction false} PromotedExactlyWhenFilled(events: seq<Event>)
    requires Roomy(events)
    ensures Log(events) == Expected(events) && Run(events).pending == AwaitedIn(Expected(events))
  {
    if events != [] {
      var (n, before, e) := (|events| - 1, events[..|events| - 1], events[|events| - 1]);
      assert RoomyAt(Expected(events[..|events|])) && events[..|events|] == events;
      forall m: nat | m <= |before|
        ensures RoomyAt(Expected(before[..m]))
      {
        assert before[..m] == events[..m];
      }
      PromotedExactlyWhenFilled(before);
      InvAlways(before);
      match e {
        case Observe(c, ledger) => AddedAwaits(Run(before), Log(before), Observed(c, ledger));
        case ApplyLedger(orders) =>
          var pending := Run(before).pending;
          PassMatches(Log(before), orders);
          AppliedSettles(Run(before), orders, pending);
          assert [] + pending == pending;
          PassKeepsUnfilled([], orders, pending);
          PassedAwaits(Log(before), orders);
      }
    }
  }

  /** Some ledger pass from event `since` on shows the decision filled. */
  ghost predicate ShownFilled(events: seq<Event>, since: nat, d: string) {
    exists j: nat :: since <= j < |events| && PassShows(events[j], d)
  }

  predicate PassShows(e: Event, d: string) { e.ApplyLedger? && FilledIn(e.orders, d) }

  lemma {:induction false} OneEach(events: seq<Event>)
    ensures |Expected(events)| == |Observations(events)|
  {
    if events != [] {
      OneEach(events[..|events| - 1]);
      if events[|events| - 1].ApplyLedger? {
        PassedAwaits(Expected(events[..|events| - 1]), events[|events| - 1].orders);
      }
    }
  }

  /** The log told from the events, entry by entry: the observation of event `n` appears filled exactly
      when it is awaited and some later pass shows its decision filled. */
  lemma {:induction false} ExpectedEntry(events: seq<Event>, n: nat)
    requires n < |events| && events[n].Observe?
    ensures var (i, o) := (|Observations(events[..n])|, Observed(events[n].cycle, events[n].ledger));
            && i < |Expected(events)|
            && Expected(events)[i] ==
               if Awaited(o) && ShownFilled(events, n + 1, o.decisionId.value) then Fulfilled(o) else o
  {
    var (m, before) := (|events| - 1, events[..|events| - 1]);
    var (i, o) := (|Observations(events[..n])|, Observed(events[n].cycle, events[n].ledger));
    OneEach(before);
    if n == m {
      assert events[..n] == before;
    } else {
      assert before[..n] == events[..n] && before[n] == events[n];
      ExpectedEntry(before, n);
      if Awaited(o) {
        ShownFilledStep(events, n + 1, o.decisionId.value);
      }
      if events[m].ApplyLedger? {
        PassedAt(Expected(before), events[m].orders, i);
      }
    }
  }

  lemma ShownFilledStep(events: seq<Event>, since: nat, d: string)
    requires since < |events|
    ensures ShownFilled(events, since, d) <==>
            ShownFilled(events[..|events| - 1], since, d) || PassShows(events[|events| - 1], d)
  {
    var (m, before) := (|events| - 1, events[..|events| - 1]);
    if ShownFilled(events, since, d) {
      var j: nat :| since <= j < |events| && PassShows(events[j], d);
      assert j < m ==> PassShows(before[j], d);
    }
    if ShownFilled(before, since, d) {
      var j: nat :| since <= j < |before| && PassShows(before[j], d);
      assert PassShows(events[j], d);
    }
  }

  // ----- the accumulator -----

  class OpportunityFunnel {
    var totals: Counts
    var bySymbol: map<string, Counts>
    var byStrategy: map<string, Counts>
    var reasons: map<Gate, map<string, nat>>
    var pending: Dict<Observation>

    ghost function Value(): Funnel
      reads this
    {
      Funnel(totals, bySymbol, byStrategy, reasons, pending)
    }

    constructor ()
      ensures Value() == EMPTY
    {
      totals, bySymbol, byStrategy, reasons, pending := NO_COUNTS, map[], map[], map[], [];
    }

    method CountStages(m: map<Stage, nat>, reached: Stage, up: bool) returns (r: map<Stage, nat>)
      ensures r == if up then BumpStages(m, Rank(reached) + 1) else DropStages(m, Rank(reached) + 1)
    {
      r := m;
      for i := 0 to Rank(reached) + 1
        invariant r == if up then BumpStages(m, i) else DropStages(m, i)
      {
        r := if up then Bump(r, STAGE_ORDER[i]) else Decrement(r, STAGE_ORDER[i]);
      }
    }

    method Count(c: Counts, o: Observation) returns (r: Counts)
      ensures r == Counted(c, o)
    {
      var stages := CountStages(c.stages, o.stage, true);
      var gates := c.gates;
      if o.gate.Some? {
        gates := Bump(gates, o.gate.value);
      }
      var exits := c.exitsFilled;
      if o.stage == FilledStage && o.isExit {
        exits := exits + 1;
      }
      r := Counts(stages, gates, Bump(c.categories, o.category), exits);
    }

    method Uncount(c: Counts, o: Observation) returns (r: Counts)
      ensures r == Retracted(c, o)
    {
      var stages := CountStages(c.stages, o.stage, false);
      var gates := c.gates;
      if o.gate.Some? {
        gates := Decrement(gates, o.gate.value);
      }
      r := c.(stages := stages, gates := gates, categories := Decrement(c.categories, o.category));
    }

    method CountReasons(m: map<string, nat>, given: seq<string>, up: bool) returns (r: map<string, nat>)
      ensures r == if up then BumpReasons(m, given) else DropReasons(m, given)
    {
      r := m;
      for i := 0 to |given|
        invariant r == if up then BumpReasons(m, given[..i]) else DropReasons(m, given[..i])
      {
        assert given[..i + 1][..i] == given[..i];
        r := if up then Bump(r, ReasonKey(r, given[i])) else Decrement(r, given[i]);
      }
      assert given[..|given|] == given;
    }

    method Add(o: Observation)
      modifies this
      ensures Value() == Added(old(Value()), o)
    {
      totals := Count(totals, o);
      var forSymbol := Count(CountsAt(bySymbol, o.symbol), o);
      bySymbol := bySymbol[o.symbol := forSymbol];
      if o.strategyId.Some? {
        var forStrategy := Count(CountsAt(byStrategy, o.strategyId.value), o);
        byStrategy := byStrategy[o.strategyId.value := forStrategy];
      }
      if o.gate.Some? {
        var counter := CountReasons(ReasonsAt(reasons, o.gate.value), Or(o.reasons, ["(unspecified)"]), true);
        reasons := reasons[o.gate.value := counter];
      }
      if Awaited(o) && |pending| < MAX_PENDING {
        pending := Put(pending, o.decisionId.value, o);
      }
    }

    method Retract(o: Observation)
      modifies this
      ensures Value() == Uncounted(old(Value()), o)
    {
      totals := Uncount(totals, o);
      if o.symbol in bySymbol {
        var forSymbol := Uncount(bySymbol[o.symbol], o);
        bySymbol := bySymbol[o.symbol := forSymbol];
      }
      var strategy := o.strategyId.GetOr("");
      if strategy in byStrategy {
        var forStrategy := Uncount(byStrategy[strategy], o);
        byStrategy := byStrategy[strategy := forStrategy];
      }
      if o.gate.Some? && o.gate.value in reasons {
        var counter := CountReasons(reasons[o.gate.value], o.reasons, false);
        reasons := reasons[o.gate.value := counter];
      }
    }

    /** Promotes what the ledger has since seen fill; the count says how many moved. */
    method ApplyLedger(ledger: L.ExecutionLedger) returns (moved: nat)
      modifies this
      ensures Value() == Applied(old(Value()), old(ledger.orders), old(pending))
      ensures moved == FilledAmong(old(ledger.orders), old(pending))
    {
      moved := 0;
      var entries, orders := pending, ledger.orders;
      for i := 0 to |entries|
        invariant Applied(Value(), orders, entries[i..]) == Applied(old(Value()), orders, entries)
        invariant moved + FilledAmong(orders, entries[i..]) == FilledAmong(orders, entries)
      {
        var (d, o) := entries[i];
        assert entries[i..][0] == entries[i] && entries[i..][1..] == entries[i + 1..];
        if FilledIn(orders, d) {
          Retract(o);
          pending := Remove(pending, d);
          Add(Fulfilled(o));
          moved := moved + 1;
        }
      }
    }

    method Record(c: Cycle, ledger: L.ExecutionLedger?) returns (o: Observation)
      modifies this
      ensures o == Observed(c, if ledger == null then None else Some(old(ledger.orders)))
      ensures Value() == Added(old(Value()), o)
    {
      var filled: Option<bool> := None;
      if ledger != null && c.proposal.Some? && c.hasOrder && FilledIn(ledger.orders, c.proposal.value.1) {
        filled := Some(true);
      }
      o := Classify(c, filled);
      Add(o);
    }
  }
}
