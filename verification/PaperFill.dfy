/** Sizing an approved intent into one child order. */
module Planning {
  import opened Common

  datatype Intent = Intent(
    decisionId: string, asset: string, side: Side, notional: Positive, reduceOnly: bool)

  datatype Planner = Planner(lotStep: Positive, minNotional: Positive, maxSlippageBps: NonNegative)

  datatype Plan = Plan(
    decisionId: string, clientOrderId: string, asset: string, side: Side,
    quantity: Positive, executionPrice: Positive)
  {
    function Notional(): real { quantity * executionPrice }
  }

  datatype PlanResult = Planned(plan: Plan) | ExitSizingRejected | PlanRejected

  /** The quantity rounded down to a whole number of lots. */
  function RoundToLot(step: Positive, quantity: NonNegative): (r: NonNegative)
    ensures r <= quantity
  {
    LotBounds(step, quantity);
    (quantity / step).Floor as real * step
  }

  lemma LotBounds(step: Positive, quantity: NonNegative)
    ensures 0.0 <= (quantity / step).Floor as real * step <= quantity
  {
    var x := quantity / step;
    assert x * step == quantity;
    ProductGrows(step, 0.0, x.Floor as real);
    ProductGrows(step, x.Floor as real, x);
  }

  /** Rounding gives the largest whole number of lots there is room for. */
  lemma LargestLots(step: Positive, quantity: NonNegative)
    ensures quantity < RoundToLot(step, quantity) + step
    ensures exists lots: nat :: IsLots(step, lots, RoundToLot(step, quantity))
  {
    var x := quantity / step;
    var n := x.Floor;
    assert x * step == quantity;
    ScaledBelow(x, n as real + 1.0, step);
    assert IsLots(step, n, RoundToLot(step, quantity));
  }

  ghost predicate IsLots(step: Positive, lots: nat, quantity: real) { quantity == lots as real * step }

  lemma ScaledBelow(a: real, b: real, c: real)
    requires a < b && c > 0.0
    ensures a * c < b * c
  {
    assert (b - a) * c > 0.0;
  }

  function DeviationBps(executionPrice: Positive, referencePrice: Positive): real {
    Abs(executionPrice - referencePrice) / referencePrice * 10000.0
  }

  function PlanOrder(planner: Planner, intent: Intent, executionPrice: real, referencePrice: real,
                     maxQuantity: Option<real>, clientOrderId: string): (r: PlanResult)
    ensures r.Planned? ==>
              && r.plan.Notional() <= intent.notional
              && (maxQuantity.Some? ==> r.plan.quantity <= maxQuantity.value)
              && planner.minNotional <= r.plan.Notional()
              && r.plan.executionPrice == executionPrice && r.plan.side == intent.side
              && r.plan.asset == Upper(intent.asset) && r.plan.decisionId == intent.decisionId
              && r.plan.clientOrderId == clientOrderId
    ensures r.ExitSizingRejected? ==> maxQuantity.Some?
  {
    if executionPrice <= 0.0 || referencePrice <= 0.0 then PlanRejected
    else if DeviationBps(executionPrice, referencePrice) > planner.maxSlippageBps then PlanRejected
    else
      QuotientPositive(intent.notional, executionPrice);
      var quantity := RoundToLot(planner.lotStep, intent.notional / executionPrice);
      if quantity <= 0.0 then PlanRejected
      else if maxQuantity.Some? && maxQuantity.value <= 0.0 then ExitSizingRejected
      else
        var clamped := if maxQuantity.None? then quantity
                       else Min(quantity, RoundToLot(planner.lotStep, maxQuantity.value));
        if clamped <= 0.0 then ExitSizingRejected
        else if clamped * executionPrice < planner.minNotional then
          (if clamped < quantity then ExitSizingRejected else PlanRejected)
        else
          ProductGrows(executionPrice, clamped, intent.notional / executionPrice);
          Planned(Plan(intent.decisionId, clientOrderId, Upper(intent.asset), intent.side, clamped, executionPrice))
  }

  /** The order worth rounding off: its value and one lot's on top still reach the smallest order. */
  predicate WorthPlanning(planner: Planner, notional: real, price: Positive) {
    notional >= planner.minNotional + planner.lotStep * price
  }

  lemma RoundedIsWorth(planner: Planner, quantity: NonNegative, price: Positive, notional: real)
    requires quantity * price == notional && WorthPlanning(planner, notional, price)
    ensures var r := RoundToLot(planner.lotStep, quantity); r > 0.0 && r * price >= planner.minNotional
  {
    var r := RoundToLot(planner.lotStep, quantity);
    LargestLots(planner.lotStep, quantity);
    ScaledBelow(quantity, r + planner.lotStep, price);
    assert (r + planner.lotStep) * price == r * price + planner.lotStep * price;
    assert r <= 0.0 ==> r * price <= 0.0;
  }

  /** The planner turns nothing away that it could size: with a price inside the slippage limit, an
      order and a cap each worth at least the minimum plus one lot are planned, within one lot of
      the smaller of the two. */
  lemma PlansWhatFits(planner: Planner, intent: Intent, price: Positive, reference: Positive,
                      cap: Option<NonNegative>, clientOrderId: string)
    requires DeviationBps(price, reference) <= planner.maxSlippageBps
    requires WorthPlanning(planner, intent.notional, price)
    requires cap.Some? ==> WorthPlanning(planner, cap.value * price, price)
    ensures var maxQuantity: Option<real> := if cap.Some? then Some(cap.value as real) else None;
            var r := PlanOrder(planner, intent, price, reference, maxQuantity, clientOrderId);
            && r.Planned?
            && (r.plan.quantity + planner.lotStep > intent.notional / price
                || (cap.Some? && r.plan.quantity + planner.lotStep > cap.value))
  {
    QuotientPositive(intent.notional, price);
    RoundedIsWorth(planner, intent.notional / price, price, intent.notional);
    LargestLots(planner.lotStep, intent.notional / price);
    if cap.Some? {
      RoundedIsWorth(planner, cap.value, price, cap.value * price);
      LargestLots(planner.lotStep, cap.value);
    }
  }
}

/** The paper fill simulator: one approved intent, at most one fill in ledger and book. */
module PaperFills {
  import opened Common
  import opened Dictionary
  import opened Planning
  import L = Ledgers
  import P = Portfolio

  /** `clientOrderId` is the planner's deterministic digest; nothing here needs it injective.
      `tolerance` is the slack of the short-sale check. */
  datatype Simulator = Simulator(
    planner: Planner, feeBps: NonNegative, slippageBps: NonNegative, paperMode: bool,
    tolerance: NonNegative, clientOrderId: string -> string)

  datatype Status = FilledStatus | DuplicateStatus | PlanRejectedStatus | RejectedStatus | InvalidExitSize

  datatype Failure = NotPaperMode | LedgerFailure(ledger: L.LedgerError) | BookFailure(book: P.BookError)

  datatype Outcome = Done(status: Status, fill: Option<L.Fill>) | Raised(failure: Failure)

  function AdverseFillPrice(side: Side, mid: Positive, slippageBps: NonNegative): real {
    var adjustment := slippageBps / 10000.0;
    if side == Buy then mid * (1.0 + adjustment) else mid * (1.0 - adjustment)
  }

  function PaperFillId(clientOrderId: string): string { "paper-fill:" + clientOrderId }

  function ClientIdOf(o: L.Order): string {
    if o.clientOrderId.Some? && o.clientOrderId.value != "" then o.clientOrderId.value else o.orderId
  }

  function ExistingOrder(l: L.Ledger, decisionId: string): Option<L.Order> {
    var found := L.OrdersForDecision(l.orders, decisionId);
    if found == [] then None else Some(found[0])
  }

  function ReduceOnlyCap(b: P.Book, intent: Intent): Option<real> {
    if !intent.reduceOnly || intent.side != Sell then None
    else Some(P.PositionOf(b, Upper(intent.asset)).quantity)
  }

  predicate IsShortSale(b: P.Book, intent: Intent, quantity: real, tolerance: real) {
    intent.side == Sell && quantity > P.PositionOf(b, Upper(intent.asset)).quantity + tolerance
  }

  function NewOrder(plan: Plan): L.Order {
    L.Order(plan.clientOrderId, plan.decisionId, plan.asset, plan.side, plan.quantity, L.Planned,
            0.0, None, Some(plan.clientOrderId), None, 0.0, None)
  }

  /** Everything up to the ledger's commit: an early answer, or the fill just recorded. */
  datatype Prepared = Stop(ledger: L.Ledger, outcome: Outcome) | Go(ledger: L.Ledger, fill: L.Fill)

  function MakeFill(sim: Simulator, intent: Intent, orderId: string, clientOrderId: string,
                    quantity: Positive, price: Positive): L.Fill
  {
    L.Fill(PaperFillId(clientOrderId), orderId, Upper(intent.asset), intent.side, quantity, price,
           ModelledFee(quantity, price, sim.feeBps), L.Modelled)
  }

  function ModelledFee(quantity: Positive, price: Positive, feeBps: NonNegative): NonNegative {
    FeeNonNegative(quantity * price, feeBps);
    quantity * price * feeBps / 10000.0
  }

  lemma FeeNonNegative(notional: real, feeBps: real)
    requires notional > 0.0 && feeBps >= 0.0
    ensures notional * feeBps / 10000.0 >= 0.0
  {
  }

  /** Duplicate check, short-sale check and ledger commit, once order and size are known. */
  function Commit(sim: Simulator, intent: Intent, l: L.Ledger, b: P.Book, ledgerTol: real,
                  order: L.Order, clientOrderId: string, quantity: Positive, price: Positive): Prepared
  {
    if PaperFillId(clientOrderId) in l.processed then Stop(l, Done(DuplicateStatus, None))
    else if IsShortSale(b, intent, quantity, sim.tolerance) then Stop(l, Done(RejectedStatus, None))
    else
      var fill := MakeFill(sim, intent, order.orderId, clientOrderId, quantity, price);
      match L.RecordFill(l, fill, ledgerTol)
      case Err(e) => Stop(l, Raised(LedgerFailure(e)))
      case Ok(r) => if r.1 then Go(r.0, fill) else Stop(r.0, Done(DuplicateStatus, None))
  }

  /** The planned size on a fresh decision; the already planned one otherwise, capped for exits. */
  function CommitPlan(sim: Simulator, intent: Intent, l: L.Ledger, b: P.Book, ledgerTol: real,
                      existing: Option<L.Order>, plan: Plan): Prepared
  {
    if existing.Some? then
      var o := existing.value;
      var quantity: Positive := if ReduceOnlyCap(b, intent).Some? && plan.quantity < o.requestedQuantity
                                then plan.quantity else o.requestedQuantity;
      Commit(sim, intent, l, b, ledgerTol, o, ClientIdOf(o), quantity, plan.executionPrice)
    else
      match L.RegisterOrder(l, NewOrder(plan))
      case Err(e) => Stop(l, Raised(LedgerFailure(e)))
      case Ok(l') =>
        Commit(sim, intent, l', b, ledgerTol, NewOrder(plan), plan.clientOrderId, plan.quantity, plan.executionPrice)
  }

  function PlanFor(sim: Simulator, intent: Intent, mid: Positive, b: P.Book): PlanResult {
    PlanOrder(sim.planner, intent, AdverseFillPrice(intent.side, mid, sim.slippageBps), mid,
              ReduceOnlyCap(b, intent), sim.clientOrderId(intent.decisionId))
  }

  function Prepare(sim: Simulator, intent: Intent, mid: real, l: L.Ledger, b: P.Book, ledgerTol: real): Prepared {
    if !sim.paperMode then Stop(l, Raised(NotPaperMode))
    else if mid <= 0.0 then Stop(l, Done(RejectedStatus, None))
    else
      var existing := ExistingOrder(l, intent.decisionId);
      if existing.Some? &&
         (existing.value.state == L.Filled || PaperFillId(ClientIdOf(existing.value)) in l.processed)
      then Stop(l, Done(DuplicateStatus, None))
      else if existing.Some? && existing.value.state in L.TERMINAL then Stop(l, Done(RejectedStatus, None))
      else
        match PlanFor(sim, intent, mid, b)
        case ExitSizingRejected => Stop(l, Done(InvalidExitSize, None))
        case PlanRejected => Stop(l, Done(PlanRejectedStatus, None))
        case Planned(plan) => CommitPlan(sim, intent, l, b, ledgerTol, existing, plan)
  }

  /** The ledger commits first, then the book is asked. */
  function Apply(sim: Simulator, intent: Intent, mid: real, l: L.Ledger, b: P.Book, ledgerTol: real, now: real):
    (L.Ledger, P.Book, Outcome)
  {
    match Prepare(sim, intent, mid, l, b, ledgerTol)
    case Stop(l', outcome) => (l', b, outcome)
    case Go(l', fill) =>
      var (b', e) := P.ApplyFill(b, fill.asset, fill.side, fill.quantity, fill.priceUsd, fill.feeUsd, now, None);
      (l', b', if e.Some? then Raised(BookFailure(e.value)) else Done(FilledStatus, Some(fill)))
  }

  // ----- what a committed fill looks like -----

  /** The fill lands on an order of this decision, at the adverse price, with the modelled fee. */
  ghost predicate Committed(sim: Simulator, intent: Intent, mid: real, b: P.Book, fill: L.Fill) {
    && mid > 0.0
    && fill.asset == Upper(intent.asset) && fill.side == intent.side
    && fill.priceUsd == AdverseFillPrice(intent.side, mid, sim.slippageBps)
    && fill.feeUsd == ModelledFee(fill.quantity, fill.priceUsd, sim.feeBps)
    && !IsShortSale(b, intent, fill.quantity, sim.tolerance)
    && (ReduceOnlyCap(b, intent).Some? ==> fill.quantity <= P.PositionOf(b, Upper(intent.asset)).quantity)
  }

  lemma CommitGo(sim: Simulator, intent: Intent, l: L.Ledger, b: P.Book, ledgerTol: real,
                 order: L.Order, clientOrderId: string, quantity: Positive, price: Positive)
    requires Commit(sim, intent, l, b, ledgerTol, order, clientOrderId, quantity, price).Go?
    ensures var c := Commit(sim, intent, l, b, ledgerTol, order, clientOrderId, quantity, price);
            && PaperFillId(clientOrderId) !in l.processed
            && !IsShortSale(b, intent, quantity, sim.tolerance)
            && c.fill == MakeFill(sim, intent, order.orderId, clientOrderId, quantity, price)
            && L.RecordFill(l, c.fill, ledgerTol) == L.Ok((c.ledger, true))
  {
  }

  /** A commit goes through on the planned size or on the one already on order. */
  lemma PlanGo(sim: Simulator, intent: Intent, l: L.Ledger, b: P.Book, ledgerTol: real,
               existing: Option<L.Order>, plan: Plan)
    requires CommitPlan(sim, intent, l, b, ledgerTol, existing, plan).Go?
    ensures var f := CommitPlan(sim, intent, l, b, ledgerTol, existing, plan).fill;
            && f.asset == Upper(intent.asset) && f.side == intent.side && f.priceUsd == plan.executionPrice
            && f.feeUsd == ModelledFee(f.quantity, f.priceUsd, sim.feeBps)
            && !IsShortSale(b, intent, f.quantity, sim.tolerance)
            && (ReduceOnlyCap(b, intent).Some? ==> f.quantity <= plan.quantity)
            && (existing.None? ==> f.quantity == plan.quantity)
            && (existing.Some? && ReduceOnlyCap(b, intent).None? ==> f.quantity == existing.value.requestedQuantity)
  {
    if existing.Some? {
      var o := existing.value;
      var quantity: Positive := if ReduceOnlyCap(b, intent).Some? && plan.quantity < o.requestedQuantity
                                then plan.quantity else o.requestedQuantity;
      CommitGo(sim, intent, l, b, ledgerTol, o, ClientIdOf(o), quantity, plan.executionPrice);
    } else {
      CommitGo(sim, intent, L.RegisterOrder(l, NewOrder(plan)).value, b, ledgerTol, NewOrder(plan),
               plan.clientOrderId, plan.quantity, plan.executionPrice);
    }
  }

  lemma PrepareGo(sim: Simulator, intent: Intent, mid: real, l: L.Ledger, b: P.Book, ledgerTol: real)
    requires Prepare(sim, intent, mid, l, b, ledgerTol).Go?
    ensures var existing := ExistingOrder(l, intent.decisionId);
            && mid > 0.0 && PlanFor(sim, intent, mid, b).Planned?
            && Prepare(sim, intent, mid, l, b, ledgerTol)
               == CommitPlan(sim, intent, l, b, ledgerTol, existing, PlanFor(sim, intent, mid, b).plan)
            && (existing.Some? ==> PaperFillId(ClientIdOf(existing.value)) !in l.processed)
  {
  }

  lemma CommittedFill(sim: Simulator, intent: Intent, mid: real, l: L.Ledger, b: P.Book, ledgerTol: real)
    requires Prepare(sim, intent, mid, l, b, ledgerTol).Go?
    ensures Committed(sim, intent, mid, b, Prepare(sim, intent, mid, l, b, ledgerTol).fill)
  {
    PrepareGo(sim, intent, mid, l, b, ledgerTol);
    PlanGo(sim, intent, l, b, ledgerTol, ExistingOrder(l, intent.decisionId), PlanFor(sim, intent, mid, b).plan);
  }

  /** No order and no fill carries the decision or the ids derived from it. */
  ghost predicate Unused(sim: Simulator, l: L.Ledger, decision: string) {
    && ExistingOrder(l, decision).None? && Get(l.orders, sim.clientOrderId(decision)).None?
    && PaperFillId(sim.clientOrderId(decision)) !in l.processed
  }

  /** A planned order of an unused decision, that is no short sale, is committed at its planned size and price. */
  lemma FreshPlanCommits(sim: Simulator, intent: Intent, mid: Positive, l: L.Ledger, b: P.Book, ledgerTol: NonNegative)
    requires sim.paperMode && Unused(sim, l, intent.decisionId) && PlanFor(sim, intent, mid, b).Planned?
    requires !IsShortSale(b, intent, PlanFor(sim, intent, mid, b).plan.quantity, sim.tolerance)
    ensures var (p, plan) := (Prepare(sim, intent, mid, l, b, ledgerTol), PlanFor(sim, intent, mid, b).plan);
            p.Go? && p.fill == MakeFill(sim, intent, plan.clientOrderId, plan.clientOrderId, plan.quantity,
                                        plan.executionPrice)
  {
    var plan := PlanFor(sim, intent, mid, b).plan;
    var order := NewOrder(plan);
    var l1 := L.RegisterOrder(l, order).value;
    GetPut(l.orders, order.orderId, order, order.orderId);
    UpperIdempotent(intent.asset);
    assert L.FindOrder(l1, order.orderId) == Some(order);
  }

  lemma SameNotional(f: L.Fill, plan: Plan)
    requires f.quantity == plan.quantity && f.priceUsd == plan.executionPrice
    ensures f.Notional() == plan.Notional()
  {
  }

  /** A decision the ledger has not seen books no more than its approved notional. */
  lemma FreshWithinNotional(sim: Simulator, intent: Intent, mid: real, l: L.Ledger, b: P.Book, ledgerTol: real)
    requires Prepare(sim, intent, mid, l, b, ledgerTol).Go? && ExistingOrder(l, intent.decisionId).None?
    ensures Prepare(sim, intent, mid, l, b, ledgerTol).fill.Notional() <= intent.notional
  {
    PrepareGo(sim, intent, mid, l, b, ledgerTol);
    PlanGo(sim, intent, l, b, ledgerTol, None, PlanFor(sim, intent, mid, b).plan);
    SameNotional(Prepare(sim, intent, mid, l, b, ledgerTol).fill, PlanFor(sim, intent, mid, b).plan);
  }

  /** A decision already on order books the quantity on order, whatever was approved since: it stays
      within the notional exactly when that quantity at the fill price does. */
  lemma ResumedWithinNotionalExactlyWhen(sim: Simulator, intent: Intent, mid: real, l: L.Ledger, b: P.Book,
                                         ledgerTol: real)
    requires Prepare(sim, intent, mid, l, b, ledgerTol).Go? && ReduceOnlyCap(b, intent).None?
    requires ExistingOrder(l, intent.decisionId).Some?
    ensures var f := Prepare(sim, intent, mid, l, b, ledgerTol).fill;
            var ordered := ExistingOrder(l, intent.decisionId).value.requestedQuantity;
            && f.quantity == ordered
            && (f.Notional() <= intent.notional <==>
                  Times(ordered, AdverseFillPrice(intent.side, mid, sim.slippageBps)) <= intent.notional)
  {
    CommittedFill(sim, intent, mid, l, b, ledgerTol);
    PrepareGo(sim, intent, mid, l, b, ledgerTol);
    PlanGo(sim, intent, l, b, ledgerTol, ExistingOrder(l, intent.decisionId), PlanFor(sim, intent, mid, b).plan);
    OrderedNotional(Prepare(sim, intent, mid, l, b, ledgerTol).fill);
  }

  lemma OrderedNotional(f: L.Fill)
    ensures f.Notional() == Times(f.quantity, f.priceUsd)
  {
  }

  /** Reduce-only sizing: a protective exit never books more than is held, whether the order is
      planned now or was planned earlier, so the book never refuses it. */
  lemma ExitNeverOversells(sim: Simulator, intent: Intent, mid: real, l: L.Ledger, b: P.Book, ledgerTol: real,
                           now: real)
    requires intent.reduceOnly && intent.side == Sell
    ensures var p := Prepare(sim, intent, mid, l, b, ledgerTol);
            && (p.Go? ==> p.fill.quantity <= P.PositionOf(b, Upper(intent.asset)).quantity)
            && (p.Go? ==> Apply(sim, intent, mid, l, b, ledgerTol, now).2 == Done(FilledStatus, Some(p.fill)))
  {
    if Prepare(sim, intent, mid, l, b, ledgerTol).Go? {
      CommittedFill(sim, intent, mid, l, b, ledgerTol);
      var f := Prepare(sim, intent, mid, l, b, ledgerTol).fill;
      UpperIdempotent(intent.asset);
      P.FillEffect(b, f.asset, f.side, f.quantity, f.priceUsd, f.feeUsd, now, None, f.asset);
    }
  }

  // ----- the object -----

  method ApplyIntent(sim: Simulator, intent: Intent, mid: real, now: real,
                     ledger: L.ExecutionLedger, portfolio: P.InMemoryPortfolioBook) returns (outcome: Outcome)
    modifies ledger, portfolio
    ensures (ledger.Value(), portfolio.Value(), outcome) ==
            Apply(sim, intent, mid, old(ledger.Value()), old(portfolio.Value()), ledger.tolerance, now)
  {
    if !sim.paperMode {
      return Raised(NotPaperMode);
    }
    if mid <= 0.0 {
      return Done(RejectedStatus, None);
    }
    var orders := L.OrdersForDecision(ledger.orders, intent.decisionId);
    if orders != [] {
      var existing := orders[0];
      if existing.state == L.Filled || PaperFillId(ClientIdOf(existing)) in ledger.processed {
        return Done(DuplicateStatus, None);
      }
      if existing.state in L.TERMINAL {
        return Done(RejectedStatus, None);
      }
    }
    var price := AdverseFillPrice(intent.side, mid, sim.slippageBps);
    var held := match Get(portfolio.positions, Upper(intent.asset)) case Some(p) => p case None => P.FLAT;
    var cap := if !intent.reduceOnly || intent.side != Sell then None else Some(held.quantity as real);
    var planned := PlanOrder(sim.planner, intent, price, mid, cap, sim.clientOrderId(intent.decisionId));
    if planned.ExitSizingRejected? {
      return Done(InvalidExitSize, None);
    }
    if planned.PlanRejected? {
      return Done(PlanRejectedStatus, None);
    }
    var plan := planned.plan;
    var order, quantity, clientOrderId := NewOrder(plan), plan.quantity, plan.clientOrderId;
    if orders != [] {
      order := orders[0];
      clientOrderId := ClientIdOf(order);
      quantity := order.requestedQuantity;
      if cap.Some? && plan.quantity < quantity {
        quantity := plan.quantity;
      }
    } else {
      var e := ledger.Register(order);
      if e.Some? {
        return Raised(LedgerFailure(e.value));
      }
    }
    outcome := Book(sim, intent, order, clientOrderId, quantity, plan.executionPrice, now, ledger, portfolio);
  }

  method Book(sim: Simulator, intent: Intent, order: L.Order, clientOrderId: string, quantity: Positive,
              price: Positive,
              now: real, ledger: L.ExecutionLedger, portfolio: P.InMemoryPortfolioBook) returns (outcome: Outcome)
    modifies ledger, portfolio
    ensures match Commit(sim, intent, old(ledger.Value()), old(portfolio.Value()), ledger.tolerance, order,
                         clientOrderId, quantity, price)
            case Stop(l', o) => ledger.Value() == l' && portfolio.Value() == old(portfolio.Value()) && outcome == o
            case Go(l', fill) =>
              var (b', e) := P.ApplyFill(old(portfolio.Value()), fill.asset, fill.side, fill.quantity,
                                         fill.priceUsd, fill.feeUsd, now, None);
              && ledger.Value() == l' && portfolio.Value() == b'
              && outcome == if e.Some? then Raised(BookFailure(e.value)) else Done(FilledStatus, Some(fill))
  {
    if PaperFillId(clientOrderId) in ledger.processed {
      return Done(DuplicateStatus, None);
    }
    var held := match Get(portfolio.positions, Upper(intent.asset)) case Some(p) => p case None => P.FLAT;
    if intent.side == Sell && quantity > held.quantity + sim.tolerance {
      return Done(RejectedStatus, None);
    }
    var fill := MakeFill(sim, intent, order.orderId, clientOrderId, quantity, price);
    var recorded := ledger.Record(fill);
    if recorded.Err? {
      return Raised(LedgerFailure(recorded.error));
    }
    if !recorded.value {
      return Done(DuplicateStatus, None);
    }
    var refused := portfolio.Fill(fill.asset, fill.side, fill.quantity, fill.priceUsd, fill.feeUsd, now, None);
    if refused.Some? {
      return Raised(BookFailure(refused.value));
    }
    return Done(FilledStatus, Some(fill));
  }
}
