/** The service loop end to end: snapshot, pipeline and review, gated fill, mark. Every such cycle
    asks the risk engine one question at most, so what holds of those holds of the service. Submission
    to a venue is off: with it on, an order planned at the ask may be registered before the paper fill. */
module Service {
  import opened Common
  import opened Dictionary
  import opened Planning
  import opened PaperFills
  import opened Risk
  import opened Exits
  import opened Pipeline
  import opened Solvency
  import R = BookOfRecord
  import W = WholeLots
  import L = Ledgers
  import P = Portfolio

  /** One symbol's turn: what the pipeline is given besides the snapshot, the halt, the breaker's
      answer, the meta-agent and its reply, what surrounds the fill, and the clock of the closing report. */
  datatype Turn = Turn(
    inputs: Inputs, halted: bool, tripped: bool, mode: Mode, hasClient: bool, reply: Review,
    snapshotAt: real, execution: Execution, reportAt: real)

  function DecisionOn(g: Config, c: Settings, v: Turn, s: P.Snapshot): Result {
    Decide(g, c, v.halted, v.tripped, v.mode, v.hasClient, v.reply, v.inputs.(snapshot := s))
  }

  /** Everything up to the closing report. An error ends the turn with what was already done; rejected
      market data marks nothing. */
  function TradeTurn(sim: Simulator, g: Config, c: Settings, tol: real, l: L.Ledger, b: P.Book, v: Turn):
    (L.Ledger, P.Book)
  {
    var (b1, snapshot) := P.TakeSnapshot(b, v.snapshotAt);
    if snapshot.None? then (l, b1)
    else
      var r := DecisionOn(g, c, v, snapshot.value);
      var (l2, b2, raised) := FillStep(sim, tol, r.order, v.execution, l, b1);
      if raised || !r.accepted then (l2, b2)
      else (l2, P.Mark(b2, BaseAsset(v.inputs.tick.symbol), v.inputs.tick.last).0)
  }

  /** Whether the turn gets as far as its report. */
  predicate Reports(sim: Simulator, g: Config, c: Settings, tol: real, l: L.Ledger, b: P.Book, v: Turn) {
    var (b1, snapshot) := P.TakeSnapshot(b, v.snapshotAt);
    snapshot.Some? && !FillStep(sim, tol, DecisionOn(g, c, v, snapshot.value).order, v.execution, l, b1).2
  }

  /** The whole turn. The report takes a second snapshot, which may roll the day. */
  function TakeTurn(sim: Simulator, g: Config, c: Settings, tol: real, l: L.Ledger, b: P.Book, v: Turn):
    (L.Ledger, P.Book)
  {
    var (l', b') := TradeTurn(sim, g, c, tol, l, b, v);
    (l', if Reports(sim, g, c, tol, l, b, v) then P.TakeSnapshot(b', v.reportAt).0 else b')
  }

  method FillOrder(sim: Simulator, order: Option<Intent>, e: Execution, ledger: L.ExecutionLedger,
                   portfolio: P.InMemoryPortfolioBook)
    returns (raised: bool)
    modifies ledger, portfolio
    ensures (ledger.Value(), portfolio.Value(), raised) ==
            FillStep(sim, ledger.tolerance, order, e, old(ledger.Value()), old(portfolio.Value()))
  {
    if order.None? || e.gates.Withhold() {
      return false;
    }
    var outcome := ApplyIntent(sim, order.value, e.mid, e.at, ledger, portfolio);
    return outcome.Raised?;
  }

  /** The same turn on the objects. */
  method RunSymbol(sim: Simulator, g: Config, c: Settings, v: Turn, ledger: L.ExecutionLedger,
                   portfolio: P.InMemoryPortfolioBook)
    modifies ledger, portfolio
    ensures (ledger.Value(), portfolio.Value()) ==
            TakeTurn(sim, g, c, ledger.tolerance, old(ledger.Value()), old(portfolio.Value()), v)
  {
    var snapshot := portfolio.Observe(v.snapshotAt);
    if snapshot.None? {
      return;
    }
    var r := DecisionOn(g, c, v, snapshot.value);
    var raised := FillOrder(sim, r.order, v.execution, ledger, portfolio);
    if raised {
      return;
    }
    if r.accepted {
      var _ := portfolio.MarkAsset(BaseAsset(v.inputs.tick.symbol), v.inputs.tick.last);
    }
    var _ := portfolio.Observe(v.reportAt);
  }

  // ----- a turn is a cycle -----

  /** The order answers this question, asked about this snapshot for this decision and asset. */
  ghost predicate Answers(c: Settings, x: Inputs, order: Option<Intent>, q: Query, reduceOnly: bool) {
    && q.snapshot == x.snapshot && q.proposal.decisionId == x.decisionId
    && q.proposal.asset == BaseAsset(x.tick.symbol)
    && order == IntentFor(c, q, reduceOnly)
  }

  lemma ExitAnswers(g: Config, c: Settings, halted: bool, tripped: bool, x: Inputs, th: Thesis) returns (q: Query)
    requires ExitResult(g, c, halted, tripped, x, th).Some?
    ensures Answers(c, x, ExitResult(g, c, halted, tripped, x, th).value.order, q, true)
  {
    var held := Get(x.snapshot.held, BaseAsset(x.tick.symbol)).value;
    q := ExitQuery(halted, tripped, x, EvaluateExits(g.exits, held, x.tick.last, x.now, x.barSeconds, th).value);
  }

  lemma EntryAnswers(g: Config, c: Settings, halted: bool, tripped: bool, x: Inputs, side: Side, confidence: real)
    returns (q: Query)
    ensures var order := Enter(g, c, halted, tripped, x, side, confidence).order;
            order.Some? ==> Answers(c, x, order, q, false)
  {
    q := EntryQuery(g, halted, tripped, x, side, confidence);
  }

  lemma StrategyAnswers(g: Config, c: Settings, halted: bool, tripped: bool, x: Inputs)
    returns (q: Query, reduceOnly: bool)
    ensures var order := Strategy(g, c, halted, tripped, x).order;
            order.Some? ==> Answers(c, x, order, q, reduceOnly)
  {
    var th := Thesis(x.check.confirmedSide, x.check.trendingDown);
    reduceOnly := false;
    if !g.pretradeGate {
      q := EntryAnswers(g, c, halted, tripped, x, Buy, 0.5);
    } else if x.hasCandles && ExitResult(g, c, halted, tripped, x, th).Some? {
      q := ExitAnswers(g, c, halted, tripped, x, th);
      reduceOnly := true;
    } else if x.check.confirmedSide.Some? {
      q := EntryAnswers(g, c, halted, tripped, x, x.check.confirmedSide.value, x.check.confidence);
    } else {
      q := EntryQuery(g, halted, tripped, x, Buy, 0.5);
    }
  }

  lemma ProcessAnswers(g: Config, c: Settings, halted: bool, tripped: bool, x: Inputs)
    returns (q: Query, reduceOnly: bool)
    ensures var order := Process(g, c, halted, tripped, x).order;
            order.Some? ==> Answers(c, x, order, q, reduceOnly)
  {
    if ExitResult(g, c, halted, tripped, x, NO_THESIS).Some? {
      q := ExitAnswers(g, c, halted, tripped, x, NO_THESIS);
      reduceOnly := true;
    } else {
      q, reduceOnly := StrategyAnswers(g, c, halted, tripped, x);
    }
  }

  /** Whatever order leaves the pipeline and its review is the risk engine's answer to one question. */
  lemma OrderAnswersOneQuestion(g: Config, c: Settings, v: Turn, s: P.Snapshot) returns (q: Query, reduceOnly: bool)
    ensures var (x, order) := (v.inputs.(snapshot := s), DecisionOn(g, c, v, s).order);
            order.Some? ==> Answers(c, x, order, q, reduceOnly)
  {
    var x := v.inputs.(snapshot := s);
    q, reduceOnly := ProcessAnswers(g, c, v.halted, v.tripped, x);
    var r := Process(g, c, v.halted, v.tripped, x);
    ReviewOnlyWithholds(v.mode, r, Reviewed(v.mode, v.hasClient, r, v.reply));
  }

  ghost function LastSeen(r: Result, v: Turn): Option<real> {
    if r.accepted then Some(v.inputs.tick.last as real) else None
  }

  /** A cycle that asks nothing: the halt is on, so no intent comes of it. */
  ghost function Silent(v: Turn, last: Option<real>): Cycle {
    Cycle(Proposal(v.inputs.decisionId, ENTRY_STRATEGY, BaseAsset(v.inputs.tick.symbol), Buy, 0.0, 1.0), None, true,
          false, false,
          v.snapshotAt, 0.0, v.execution, last)
  }

  ghost function Asking(v: Turn, q: Query, reduceOnly: bool, last: Option<real>): Cycle {
    Cycle(q.proposal, q.features, q.halted, q.tripped, reduceOnly, v.snapshotAt, q.now, v.execution, last)
  }

  lemma SilentAsksNothing(c: Settings, v: Turn, last: Option<real>, s: P.Snapshot)
    ensures var y := Silent(v, last); IntentFor(c, QueryOf(y, s), y.reduceOnly).None?
  {
  }

  /** From the snapshot on, turn and cycle agree once they agree on the order, the asset and the price. */
  lemma SameFromHere(sim: Simulator, g: Config, c: Settings, tol: real, l: L.Ledger, b: P.Book, v: Turn, y: Cycle,
                     s: P.Snapshot)
    requires P.TakeSnapshot(b, v.snapshotAt).1 == Some(s)
    requires y.snapshotAt == v.snapshotAt && y.execution == v.execution
    requires y.proposal.asset == BaseAsset(v.inputs.tick.symbol) && y.last == LastSeen(DecisionOn(g, c, v, s), v)
    requires IntentFor(c, QueryOf(y, s), y.reduceOnly) == DecisionOn(g, c, v, s).order
    ensures TradeTurn(sim, g, c, tol, l, b, v) == CycleStep(sim, c, tol, l, b, y)
  {
  }

  /** Up to its report, every turn does to ledger and book what one cycle of the abstract kind does. */
  lemma TurnIsACycle(sim: Simulator, g: Config, c: Settings, tol: real, l: L.Ledger, b: P.Book, v: Turn)
    returns (y: Cycle)
    ensures y.proposal.decisionId == v.inputs.decisionId
    ensures TradeTurn(sim, g, c, tol, l, b, v) == CycleStep(sim, c, tol, l, b, y)
  {
    var snapshot := P.TakeSnapshot(b, v.snapshotAt).1;
    if snapshot.None? {
      y := Silent(v, None);
      return;
    }
    var s := snapshot.value;
    var r := DecisionOn(g, c, v, s);
    if r.order.Some? {
      var q, reduceOnly := OrderAnswersOneQuestion(g, c, v, s);
      y := Asking(v, q, reduceOnly, LastSeen(r, v));
      assert QueryOf(y, s) == q;
    } else {
      y := Silent(v, LastSeen(r, v));
      SilentAsksNothing(c, v, y.last, s);
    }
    SameFromHere(sim, g, c, tol, l, b, v, y, s);
  }

  // ----- runs of the service -----

  datatype Event =
    | Traded(turn: Turn)
    | Marked(asset: string, price: real)
    | Observed(now: real)
    | RestartLedger(saved: L.LedgerState)
    | RestartBook

  ghost function Step(sim: Simulator, g: Config, c: Settings, tol: real, s: (L.Ledger, P.Book), e: Event):
    (L.Ledger, P.Book)
  {
    match e
    case Traded(v) => TakeTurn(sim, g, c, tol, s.0, s.1, v)
    case Marked(asset, price) => (s.0, P.Mark(s.1, asset, price).0)
    case Observed(now) => (s.0, P.TakeSnapshot(s.1, now).0)
    case RestartLedger(saved) => (L.Step(s.0, L.Restart(saved), tol), s.1)
    case RestartBook => (s.0, if P.SaveBook(s.1).Some? then P.LoadBook(P.SaveBook(s.1).value) else s.1)
  }

  ghost function Run(sim: Simulator, g: Config, c: Settings, tol: real, s: (L.Ledger, P.Book),
                     es: seq<Event>): (L.Ledger, P.Book) {
    if es == [] then s else Step(sim, g, c, tol, Run(sim, g, c, tol, s, es[..|es| - 1]), es[|es| - 1])
  }

  /** Every turn has a decision id no order carries yet and no other turn uses. */
  ghost predicate FreshTurns(l: L.Ledger, es: seq<Event>) {
    && (forall i :: 0 <= i < |es| && es[i].Traded? ==> ExistingOrder(l, es[i].turn.inputs.decisionId).None?)
    && (forall i, j :: 0 <= i < j < |es| && es[i].Traded? && es[j].Traded? ==>
          es[i].turn.inputs.decisionId != es[j].turn.inputs.decisionId)
  }

  lemma StepKeepsOthers(sim: Simulator, g: Config, c: Settings, tol: real, s: (L.Ledger, P.Book), e: Event,
                        decision: string)
    requires L.Valid(s.0) && ExistingOrder(s.0, decision).None?
    requires e.Traded? ==> decision != e.turn.inputs.decisionId
    ensures L.Valid(Step(sim, g, c, tol, s, e).0) && ExistingOrder(Step(sim, g, c, tol, s, e).0, decision).None?
  {
    if e.Traded? {
      var y := TurnIsACycle(sim, g, c, tol, s.0, s.1, e.turn);
      CycleKeepsOthersUnlisted(sim, c, tol, s.0, s.1, y, decision);
    }
  }

  lemma {:induction false} RunKeepsOthers(sim: Simulator, g: Config, c: Settings, tol: real, s: (L.Ledger, P.Book),
                                          es: seq<Event>, decision: string)
    requires L.Valid(s.0) && ExistingOrder(s.0, decision).None?
    requires forall i :: 0 <= i < |es| && es[i].Traded? ==> decision != es[i].turn.inputs.decisionId
    ensures L.Valid(Run(sim, g, c, tol, s, es).0) && ExistingOrder(Run(sim, g, c, tol, s, es).0, decision).None?
  {
    if es != [] {
      RunKeepsOthers(sim, g, c, tol, s, es[..|es| - 1], decision);
      StepKeepsOthers(sim, g, c, tol, Run(sim, g, c, tol, s, es[..|es| - 1]), es[|es| - 1], decision);
    }
  }

  lemma StepIsSolvent(sim: Simulator, g: Config, c: Settings, tol: real, s: (L.Ledger, P.Book), e: Event)
    requires FeesFit(c, sim.feeBps) && Solvent(s.1)
    requires e.Traded? ==> ExistingOrder(s.0, e.turn.inputs.decisionId).None?
    ensures Solvent(Step(sim, g, c, tol, s, e).1)
  {
    match e {
      case Traded(v) =>
        var y := TurnIsACycle(sim, g, c, tol, s.0, s.1, v);
        CycleIsSolvent(sim, c, tol, s.0, s.1, y);
        SnapshotCash(TradeTurn(sim, g, c, tol, s.0, s.1, v).1, v.reportAt);
      case Observed(now) => SnapshotCash(s.1, now);
      case _ =>
    }
  }

  /** End-to-end solvency: whatever the market, gates, exits, breaker, meta-agent and restarts do, no run
      of the service takes cash below zero when fees fit. With venue submission on, the paper fill honours
      the quantity submitted, planned at another price, and may cost more than was approved; such runs are
      not among these. */
  lemma {:induction false} ServiceNeverOverdraws(sim: Simulator, g: Config, c: Settings, tol: real, l: L.Ledger,
                                                 b: P.Book, es: seq<Event>)
    requires FeesFit(c, sim.feeBps) && L.Valid(l) && Solvent(b) && FreshTurns(l, es)
    ensures Solvent(Run(sim, g, c, tol, (l, b), es).1)
  {
    if es != [] {
      var front, e := es[..|es| - 1], es[|es| - 1];
      ServiceNeverOverdraws(sim, g, c, tol, l, b, front);
      if e.Traded? {
        RunKeepsOthers(sim, g, c, tol, (l, b), front, e.turn.inputs.decisionId);
      }
      StepIsSolvent(sim, g, c, tol, Run(sim, g, c, tol, (l, b), front), e);
    }
  }

  // ----- the book of record, end to end -----

  /** The fill step with the log of committed fills it extends. */
  ghost function FillLogged(sim: Simulator, tol: real, s: R.System, order: Option<Intent>, e: Execution): R.System {
    if order.None? || e.gates.Withhold() then s else R.Step(sim, tol, s, R.Attempt(order.value, e.mid, e.at))
  }

  ghost function TradeLogged(sim: Simulator, g: Config, c: Settings, tol: real, s: R.System, v: Turn): R.System {
    var (b1, snapshot) := P.TakeSnapshot(s.book, v.snapshotAt);
    if snapshot.None? then s.(book := b1)
    else
      var r := DecisionOn(g, c, v, snapshot.value);
      var filled := FillLogged(sim, tol, s.(book := b1), r.order, v.execution);
      if FillStep(sim, tol, r.order, v.execution, s.ledger, b1).2 || !r.accepted then filled
      else filled.(book := P.Mark(filled.book, BaseAsset(v.inputs.tick.symbol), v.inputs.tick.last).0)
  }

  ghost function TurnLogged(sim: Simulator, g: Config, c: Settings, tol: real, s: R.System, v: Turn): R.System {
    var traded := TradeLogged(sim, g, c, tol, s, v);
    if Reports(sim, g, c, tol, s.ledger, s.book, v) then traded.(book := P.TakeSnapshot(traded.book, v.reportAt).0)
    else traded
  }

  ghost function StepLogged(sim: Simulator, g: Config, c: Settings, tol: real, s: R.System, e: Event): R.System {
    if e.Traded? then TurnLogged(sim, g, c, tol, s, e.turn)
    else
      var (l', b') := Step(sim, g, c, tol, (s.ledger, s.book), e);
      s.(ledger := l', book := b')
  }

  ghost function RunLogged(sim: Simulator, g: Config, c: Settings, tol: real, s: R.System, es: seq<Event>): R.System {
    if es == [] then s else StepLogged(sim, g, c, tol, RunLogged(sim, g, c, tol, s, es[..|es| - 1]), es[|es| - 1])
  }

  lemma FillLoggedIsFill(sim: Simulator, tol: real, s: R.System, order: Option<Intent>, e: Execution)
    ensures var f := FillStep(sim, tol, order, e, s.ledger, s.book);
            FillLogged(sim, tol, s, order, e).ledger == f.0 && FillLogged(sim, tol, s, order, e).book == f.1
  {
  }

  lemma TradeLoggedIsTrade(sim: Simulator, g: Config, c: Settings, tol: real, s: R.System, v: Turn)
    ensures var (s', t) := (TradeLogged(sim, g, c, tol, s, v), TradeTurn(sim, g, c, tol, s.ledger, s.book, v));
            s'.ledger == t.0 && s'.book == t.1
  {
    var (b1, snapshot) := P.TakeSnapshot(s.book, v.snapshotAt);
    if snapshot.Some? {
      FillLoggedIsFill(sim, tol, s.(book := b1), DecisionOn(g, c, v, snapshot.value).order, v.execution);
    }
  }

  lemma StepLoggedIsStep(sim: Simulator, g: Config, c: Settings, tol: real, s: R.System, e: Event)
    ensures var s' := StepLogged(sim, g, c, tol, s, e);
            (s'.ledger, s'.book) == Step(sim, g, c, tol, (s.ledger, s.book), e)
  {
    if e.Traded? {
      TradeLoggedIsTrade(sim, g, c, tol, s, e.turn);
    }
  }

  lemma TradeStaysSound(sim: Simulator, g: Config, c: Settings, tol: real, s: R.System, v: Turn)
    requires R.Sound(s)
    ensures R.Sound(TradeLogged(sim, g, c, tol, s, v))
  {
    R.ObserveStaysSound(s, v.snapshotAt);
    var (b1, snapshot) := P.TakeSnapshot(s.book, v.snapshotAt);
    if snapshot.Some? {
      var order := DecisionOn(g, c, v, snapshot.value).order;
      if order.Some? {
        R.AttemptStaysSound(sim, tol, s.(book := b1), order.value, v.execution.mid, v.execution.at);
      }
      R.MarkStaysSound(FillLogged(sim, tol, s.(book := b1), order, v.execution), BaseAsset(v.inputs.tick.symbol),
                       v.inputs.tick.last);
    }
  }

  lemma TurnStaysSound(sim: Simulator, g: Config, c: Settings, tol: real, s: R.System, v: Turn)
    requires R.Sound(s)
    ensures R.Sound(TurnLogged(sim, g, c, tol, s, v))
  {
    TradeStaysSound(sim, g, c, tol, s, v);
    R.ObserveStaysSound(TradeLogged(sim, g, c, tol, s, v), v.reportAt);
  }

  lemma TradeStaysTidy(sim: Simulator, g: Config, c: Settings, tol: real, s: R.System, v: Turn)
    requires L.Valid(s.ledger) && W.Tidy(sim, s) && sim.tolerance < sim.planner.lotStep
    ensures W.Tidy(sim, TradeLogged(sim, g, c, tol, s, v))
  {
    W.ObserveStaysTidy(sim, s, v.snapshotAt);
    var (b1, snapshot) := P.TakeSnapshot(s.book, v.snapshotAt);
    if snapshot.Some? {
      var order := DecisionOn(g, c, v, snapshot.value).order;
      if order.Some? {
        W.AttemptStaysTidy(sim, tol, s.(book := b1), order.value, v.execution.mid, v.execution.at);
      }
      W.MarkStaysTidy(sim, FillLogged(sim, tol, s.(book := b1), order, v.execution), BaseAsset(v.inputs.tick.symbol),
                      v.inputs.tick.last);
    }
  }

  lemma TurnStaysTidy(sim: Simulator, g: Config, c: Settings, tol: real, s: R.System, v: Turn)
    requires L.Valid(s.ledger) && W.Tidy(sim, s) && sim.tolerance < sim.planner.lotStep
    ensures W.Tidy(sim, TurnLogged(sim, g, c, tol, s, v))
  {
    TradeStaysTidy(sim, g, c, tol, s, v);
    W.ObserveStaysTidy(sim, TradeLogged(sim, g, c, tol, s, v), v.reportAt);
  }

  lemma StepStaysSound(sim: Simulator, g: Config, c: Settings, tol: real, s: R.System, e: Event)
    requires R.Sound(s)
    ensures R.Sound(StepLogged(sim, g, c, tol, s, e))
  {
    match e {
      case Traded(v) => TurnStaysSound(sim, g, c, tol, s, v);
      case Marked(asset, price) => R.MarkStaysSound(s, asset, price);
      case Observed(now) => R.ObserveStaysSound(s, now);
      case RestartLedger(saved) =>
        assert StepLogged(sim, g, c, tol, s, e) == s;
      case RestartBook => R.RestartStaysSound(s);
    }
  }

  lemma StepStaysTidy(sim: Simulator, g: Config, c: Settings, tol: real, s: R.System, e: Event)
    requires R.Sound(s) && W.Tidy(sim, s) && sim.tolerance < sim.planner.lotStep
    ensures W.Tidy(sim, StepLogged(sim, g, c, tol, s, e))
  {
    match e {
      case Traded(v) => TurnStaysTidy(sim, g, c, tol, s, v);
      case Marked(asset, price) => W.MarkStaysTidy(sim, s, asset, price);
      case Observed(now) => W.ObserveStaysTidy(sim, s, now);
      case RestartLedger(saved) =>
      case RestartBook => P.RestartIsIdentity(s.book);
    }
  }

  lemma {:induction false} RunStaysSound(sim: Simulator, g: Config, c: Settings, tol: real, s: R.System, es: seq<Event>)
    requires R.Sound(s)
    ensures var s' := RunLogged(sim, g, c, tol, s, es);
            && R.Sound(s') && (s'.ledger, s'.book) == Run(sim, g, c, tol, (s.ledger, s.book), es)
            && (W.Tidy(sim, s) && sim.tolerance < sim.planner.lotStep ==> W.Tidy(sim, s'))
  {
    if es != [] {
      var before := RunLogged(sim, g, c, tol, s, es[..|es| - 1]);
      RunStaysSound(sim, g, c, tol, s, es[..|es| - 1]);
      StepStaysSound(sim, g, c, tol, before, es[|es| - 1]);
      StepLoggedIsStep(sim, g, c, tol, before, es[|es| - 1]);
      if W.Tidy(sim, s) && sim.tolerance < sim.planner.lotStep {
        StepStaysTidy(sim, g, c, tol, before, es[|es| - 1]);
      }
    }
  }

  /** Over every run of the service, restarts included, the log of committed fills explains ledger and
      book: one entry per decision at most, the cost identity, and agreement of quantities, cash and
      fees exactly when the book took every entry, which is always when the slack is below one lot. */
  lemma ServiceKeepsTheBooks(sim: Simulator, g: Config, c: Settings, tol: real, startingNav: Positive, es: seq<Event>)
    ensures var (l, b) := Run(sim, g, c, tol, (L.EMPTY, P.Opening(startingNav)), es);
            var log := RunLogged(sim, g, c, tol, R.Start(startingNav), es).log;
            && R.Sound(R.System(l, b, log)) && (R.Agree(l, b) <==> R.AllTaken(log))
            && (sim.tolerance < sim.planner.lotStep ==> R.Agree(l, b))
  {
    var s := RunLogged(sim, g, c, tol, R.Start(startingNav), es);
    R.BookOfRecordOverEveryRun(sim, tol, startingNav, []);
    W.StartIsTidy(sim, startingNav);
    RunStaysSound(sim, g, c, tol, R.Start(startingNav), es);
    R.AgreeIffAllTaken(s.ledger, s.book, s.log);
  }

  // ----- a fired exit, end to end -----

  lemma SnapshotKeepsHoldings(b: P.Book, at: real, asset: string)
    ensures P.PositionOf(P.TakeSnapshot(b, at).0, asset) == P.PositionOf(b, asset)
  {
  }

  lemma MarkKeepsQuantity(b: P.Book, asset: string, price: real, q: string)
    ensures P.PositionOf(P.Mark(b, asset, price).0, q).quantity == P.PositionOf(b, q).quantity
  {
    if price > 0.0 {
      P.MarkedKeeps(b, Upper(asset), price, q);
    }
  }

  /** A turn whose order is filled holds afterwards what the fill left. */
  lemma FilledTurnHolds(sim: Simulator, g: Config, c: Settings, tol: real, l: L.Ledger, b: P.Book, v: Turn,
                        b1: P.Book, s: P.Snapshot, order: Intent, asset: string)
    requires P.TakeSnapshot(b, v.snapshotAt) == (b1, Some(s)) && DecisionOn(g, c, v, s).order == Some(order)
    requires !v.execution.gates.Withhold()
    ensures P.PositionOf(TakeTurn(sim, g, c, tol, l, b, v).1, asset).quantity ==
            P.PositionOf(Apply(sim, order, v.execution.mid, l, b1, tol, v.execution.at).1, asset).quantity
  {
    var b3 := TradeTurn(sim, g, c, tol, l, b, v).1;
    SnapshotKeepsHoldings(b3, v.reportAt, asset);
    var b2 := Apply(sim, order, v.execution.mid, l, b1, tol, v.execution.at).1;
    MarkKeepsQuantity(b2, BaseAsset(v.inputs.tick.symbol), v.inputs.tick.last, asset);
  }

  /** Nothing the exit answers to stands against it: market data, halt, freshness, allowlist, spread. */
  ghost predicate ExitPermitted(g: Config, c: Settings, v: Turn, s: P.Snapshot) {
    var x := v.inputs.(snapshot := s);
    && MarketReasons(g, x) == [] && FiredExit(g, x).Some?
    && !v.halted && !IsStale(c, s, x.now) && BaseAsset(x.tick.symbol) in c.assets && x.tick.spreadBps <= c.maxSpreadBps
  }

  /** What the exit is for: what it asks, up to the exposure the snapshot shows. */
  ghost function ExitNotional(g: Config, v: Turn, s: P.Snapshot): real
    requires FiredExit(g, v.inputs.(snapshot := s)).Some?
  {
    Min(FiredExit(g, v.inputs.(snapshot := s)).value.requested, Existing(s, BaseAsset(v.inputs.tick.symbol)))
  }

  lemma PermittedExitOrders(g: Config, c: Settings, b: P.Book, v: Turn, s: P.Snapshot)
    requires P.Valid(b) && P.TakeSnapshot(b, v.snapshotAt).1 == Some(s) && ExitPermitted(g, c, v, s)
    ensures ExitNotional(g, v, s) > 0.0
    ensures DecisionOn(g, c, v, s).order ==
            Some(Intent(v.inputs.decisionId, BaseAsset(v.inputs.tick.symbol), Sell, ExitNotional(g, v, s), true))
  {
    ExitsCannotBeFrozen(b, v.snapshotAt, g, c, v.halted, v.tripped, v.mode, v.hasClient, v.reply,
                        v.inputs.(snapshot := s));
  }

  /** What the planner needs to size a sell of `notional` and of all that is held: the mid is positive and
      the slippage within limit, and each is worth the smallest order and one lot. */
  ghost predicate Sizeable(sim: Simulator, notional: real, held: real, mid: real) {
    && mid > 0.0 && AdverseFillPrice(Sell, mid, sim.slippageBps) > 0.0
    && var price: Positive := AdverseFillPrice(Sell, mid, sim.slippageBps);
       && DeviationBps(price, mid) <= sim.planner.maxSlippageBps
       && WorthPlanning(sim.planner, notional, price) && WorthPlanning(sim.planner, held * price, price)
  }

  /** A sizeable exit is planned, within one lot of the smaller of its notional and the holding. */
  lemma SizeableExitIsPlanned(sim: Simulator, intent: Intent, mid: real, b: P.Book)
    requires intent.reduceOnly && intent.side == Sell
    requires Sizeable(sim, intent.notional, P.PositionOf(b, Upper(intent.asset)).quantity, mid)
    ensures var held := P.PositionOf(b, Upper(intent.asset)).quantity;
            var price := AdverseFillPrice(Sell, mid, sim.slippageBps);
            var r := PlanFor(sim, intent, mid, b);
            && r.Planned? && r.plan.quantity <= held
            && r.plan.quantity + sim.planner.lotStep > Min(intent.notional / price, held)
  {
    var held := P.PositionOf(b, Upper(intent.asset)).quantity;
    PlansWhatFits(sim.planner, intent, AdverseFillPrice(Sell, mid, sim.slippageBps), mid, Some(held),
                  sim.clientOrderId(intent.decisionId));
  }

  // ----- exactly what a fired exit sells -----

  /** The whole lots in both the exit's notional and the holding. */
  ghost function LotsIn(planner: Planner, notional: Positive, held: NonNegative, price: Positive): real {
    QuotientPositive(notional, price);
    Min(RoundToLot(planner.lotStep, notional / price), RoundToLot(planner.lotStep, held))
  }

  /** Those lots, when the slippage is within limit and they are worth the smallest order; nothing otherwise. */
  ghost function Sale(sim: Simulator, notional: Positive, held: NonNegative, mid: real): real {
    if mid <= 0.0 then 0.0
    else
      var price := AdverseFillPrice(Sell, mid, sim.slippageBps);
      if price <= 0.0 || DeviationBps(price, mid) > sim.planner.maxSlippageBps then 0.0
      else if Times(LotsIn(sim.planner, notional, held, price), price) < sim.planner.minNotional then 0.0
      else LotsIn(sim.planner, notional, held, price)
  }

  lemma PlanIsSale(sim: Simulator, intent: Intent, mid: Positive, b: P.Book)
    requires intent.reduceOnly && intent.side == Sell
    ensures var (r, sale) := (PlanFor(sim, intent, mid, b),
                              Sale(sim, intent.notional, P.PositionOf(b, Upper(intent.asset)).quantity, mid));
            (r.Planned? <==> sale > 0.0) && (r.Planned? ==> r.plan.quantity == sale) && sale >= 0.0
  {
    var (price, held) := (AdverseFillPrice(Sell, mid, sim.slippageBps), P.PositionOf(b, Upper(intent.asset)).quantity);
    if price > 0.0 && DeviationBps(price, mid) <= sim.planner.maxSlippageBps {
      var lots := LotsIn(sim.planner, intent.notional, held, price);
      if lots <= 0.0 {
        ProductGrows(price, lots, 0.0);
      }
    }
  }

  lemma ExitAttemptSells(sim: Simulator, intent: Intent, mid: real, l: L.Ledger, b: P.Book, tol: NonNegative, now: real)
    requires sim.paperMode && intent.reduceOnly && intent.side == Sell && Unused(sim, l, intent.decisionId)
    ensures var held := P.PositionOf(b, Upper(intent.asset)).quantity;
            P.PositionOf(Apply(sim, intent, mid, l, b, tol, now).1, Upper(intent.asset)).quantity ==
            held - Sale(sim, intent.notional, held, mid)
  {
    if mid > 0.0 {
      PlanIsSale(sim, intent, mid, b);
      if PlanFor(sim, intent, mid, b).Planned? {
        FreshPlanCommits(sim, intent, mid, l, b, tol);
        ExitNeverOversells(sim, intent, mid, l, b, tol, now);
        var f := Prepare(sim, intent, mid, l, b, tol).fill;
        UpperIdempotent(intent.asset);
        P.FillEffect(b, f.asset, f.side, f.quantity, f.priceUsd, f.feeUsd, now, None, f.asset);
      }
    }
  }

  /** A fired price or time exit that is permitted and not withheld sells, in the same turn, exactly the
      whole lots in both its notional and the holding, or nothing when those fall short of the smallest
      order or the slippage limit is exceeded. */
  lemma FiredExitSellsExactly(sim: Simulator, g: Config, c: Settings, tol: NonNegative, l: L.Ledger, b: P.Book, v: Turn,
                              b1: P.Book, s: P.Snapshot)
    requires P.Valid(b) && P.TakeSnapshot(b, v.snapshotAt) == (b1, Some(s)) && ExitPermitted(g, c, v, s)
    requires sim.paperMode && !v.execution.gates.Withhold() && Unused(sim, l, v.inputs.decisionId)
    ensures ExitNotional(g, v, s) > 0.0
    ensures var asset := BaseAsset(v.inputs.tick.symbol);
            var held := P.PositionOf(b, asset).quantity;
            P.PositionOf(TakeTurn(sim, g, c, tol, l, b, v).1, asset).quantity ==
            held - Sale(sim, ExitNotional(g, v, s), held, v.execution.mid)
  {
    var asset := BaseAsset(v.inputs.tick.symbol);
    PermittedExitOrders(g, c, b, v, s);
    var order := DecisionOn(g, c, v, s).order.value;
    UpperIdempotent(BeforeSlash(v.inputs.tick.symbol));
    SnapshotKeepsHoldings(b, v.snapshotAt, asset);
    ExitAttemptSells(sim, order, v.execution.mid, l, b1, tol, v.execution.at);
    FilledTurnHolds(sim, g, c, tol, l, b, v, b1, s, order, asset);
  }

  /** A fired price or time exit that market data, halt, freshness, allowlist and spread permit, nothing
      withholds and the planner can size sells in the same turn: never more than is held, and within one
      lot of what it asks for or of all there is, whatever drawdown, breaker, cash, news, universe or
      meta-agent say. */
  lemma FiredExitSellsDown(sim: Simulator, g: Config, c: Settings, tol: NonNegative, l: L.Ledger, b: P.Book, v: Turn,
                           b1: P.Book, s: P.Snapshot)
    requires P.Valid(b) && P.TakeSnapshot(b, v.snapshotAt) == (b1, Some(s)) && ExitPermitted(g, c, v, s)
    requires sim.paperMode && !v.execution.gates.Withhold() && Unused(sim, l, v.inputs.decisionId)
    requires Sizeable(sim, ExitNotional(g, v, s), P.PositionOf(b, BaseAsset(v.inputs.tick.symbol)).quantity,
                      v.execution.mid)
    ensures var asset := BaseAsset(v.inputs.tick.symbol);
            var held := P.PositionOf(b, asset).quantity;
            var sold := held - P.PositionOf(TakeTurn(sim, g, c, tol, l, b, v).1, asset).quantity;
            var price := AdverseFillPrice(Sell, v.execution.mid, sim.slippageBps);
            && 0.0 < sold <= held
            && sold + sim.planner.lotStep > Min(ExitNotional(g, v, s) / price, held)
  {
    var asset := BaseAsset(v.inputs.tick.symbol);
    FiredExitSellsExactly(sim, g, c, tol, l, b, v, b1, s);
    UpperIdempotent(BeforeSlash(v.inputs.tick.symbol));
    var order := Intent(v.inputs.decisionId, asset, Sell, ExitNotional(g, v, s), true);
    SizeableExitIsPlanned(sim, order, v.execution.mid, b);
    PlanIsSale(sim, order, v.execution.mid, b);
  }
}
