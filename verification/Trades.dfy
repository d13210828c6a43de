/** Trading one lot at a chosen price: a simulator that trades at all, whatever its lots, smallest order and
    slippage are, fills any large enough notional as exactly one lot at the right mid. */
module LotTrades {
  import opened Common
  import opened Planning
  import opened PaperFills
  import L = Ledgers
  import P = Portfolio

  /** In paper mode, with the slippage inside the planner's limit and below the whole price. */
  ghost predicate Trades(sim: Simulator) {
    sim.paperMode && sim.slippageBps <= sim.planner.maxSlippageBps && sim.slippageBps < 10000.0
  }

  /** What slippage makes of a mid of one. */
  ghost function Slipped(side: Side, slippageBps: NonNegative): real {
    if side == Buy then 1.0 + slippageBps / 10000.0 else 1.0 - slippageBps / 10000.0
  }

  /** The mid at which an order fills at the price. */
  ghost function MidFor(sim: Simulator, side: Side, price: Positive): (mid: Positive)
    requires Trades(sim)
  {
    QuotientPositive(price, Slipped(side, sim.slippageBps));
    Over(price, Slipped(side, sim.slippageBps))
  }

  lemma MidFills(sim: Simulator, side: Side, price: Positive)
    requires Trades(sim)
    ensures AdverseFillPrice(side, MidFor(sim, side, price), sim.slippageBps) == price
    ensures DeviationBps(price, MidFor(sim, side, price)) == sim.slippageBps
  {
    var mid, part := MidFor(sim, side, price), sim.slippageBps / 10000.0;
    QuotientPositive(price, Slipped(side, sim.slippageBps));
    assert price - mid == if side == Buy then mid * part else -(mid * part);
    ProductGrows(mid, 0.0, part);
    DivideOut(mid, part);
  }

  lemma DivideOut(a: Positive, b: real)
    ensures a * b / a == b
  {
  }

  /** The price at which one lot is worth the notional. */
  ghost function LotPrice(sim: Simulator, notional: Positive): (price: Positive)
    ensures Times(sim.planner.lotStep, price) == notional
  {
    QuotientPositive(notional, sim.planner.lotStep);
    Over(notional, sim.planner.lotStep)
  }

  /** The mid at which an order of this notional buys or sells one lot. */
  ghost function LotMid(sim: Simulator, side: Side, notional: Positive): Positive
    requires Trades(sim)
  {
    MidFor(sim, side, LotPrice(sim, notional))
  }

  lemma OneLotRounds(lot: Positive, price: Positive, notional: Positive)
    requires notional == Times(lot, price)
    ensures notional / price == lot && RoundToLot(lot, notional / price) == lot
  {
    DivideOut(price, lot);
    SelfQuotient(lot);
  }

  lemma OneLotIsPlanned(sim: Simulator, intent: Intent, b: P.Book)
    requires Trades(sim) && intent.notional >= sim.planner.minNotional && !intent.reduceOnly
    ensures PlanFor(sim, intent, LotMid(sim, intent.side, intent.notional), b) ==
            Planned(Plan(intent.decisionId, sim.clientOrderId(intent.decisionId), Upper(intent.asset), intent.side,
                         sim.planner.lotStep, LotPrice(sim, intent.notional)))
  {
    var price := LotPrice(sim, intent.notional);
    MidFills(sim, intent.side, price);
    OneLotRounds(sim.planner.lotStep, price, intent.notional);
  }

  /** Of an unused decision it is filled, when it is no short sale. */
  lemma OneLotCommits(sim: Simulator, intent: Intent, l: L.Ledger, b: P.Book, tol: NonNegative)
    requires Trades(sim) && intent.notional >= sim.planner.minNotional && !intent.reduceOnly
    requires Unused(sim, l, intent.decisionId) && !IsShortSale(b, intent, sim.planner.lotStep, sim.tolerance)
    ensures var p := Prepare(sim, intent, LotMid(sim, intent.side, intent.notional), l, b, tol);
            var id := sim.clientOrderId(intent.decisionId);
            p.Go? && p.fill == MakeFill(sim, intent, id, id, sim.planner.lotStep, LotPrice(sim, intent.notional))
  {
    OneLotIsPlanned(sim, intent, b);
    FreshPlanCommits(sim, intent, LotMid(sim, intent.side, intent.notional), l, b, tol);
  }
}
