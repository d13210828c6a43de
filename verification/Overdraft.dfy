/** Solvency is exact: whenever fees do not fit, a short run from a new book overdraws it, whatever the lots,
    the smallest order and the slippage of the simulator. */
module Overdraft {
  import opened Common
  import opened Dictionary
  import opened Planning
  import opened PaperFills
  import opened LotTrades
  import opened Risk
  import opened Solvency
  import opened OneAsset
  import L = Ledgers
  import P = Portfolio

  // ----- trading one lot -----

  ghost function Signed(side: Side, x: real): real { if side == Buy then x else -x }

  /** A quiet cycle that asks for a notional at the mid at which it is one lot. */
  ghost function Ask(sim: Simulator, decision: string, asset: string, side: Side, notional: Positive): Cycle
    requires Trades(sim)
  {
    Cycle(Proposal(decision, "entry", asset, side, 1.0, notional), None, false, false, false, 0.0, 0.0,
          Execution(OPEN_GATES, LotMid(sim, side, notional), 0.0), None)
  }

  ghost function IntentOf(decision: string, asset: string, side: Side, notional: Positive): Intent {
    Intent(decision, asset, side, notional, false)
  }

  lemma FeeOnLot(sim: Simulator, notional: Positive)
    ensures ModelledFee(sim.planner.lotStep, LotPrice(sim, notional), sim.feeBps) == FeeOn(notional, sim.feeBps)
  {
  }

  /** A trade of this size is possible: large enough, of an unused decision, and no short sale. */
  ghost predicate Possible(sim: Simulator, intent: Intent, l: L.Ledger, b: P.Book) {
    && Trades(sim) && intent.notional >= sim.planner.minNotional && !intent.reduceOnly
    && Unused(sim, l, intent.decisionId)
    && (intent.side == Sell ==> sim.planner.lotStep <= P.PositionOf(b, Upper(intent.asset)).quantity)
  }

  ghost function After(sim: Simulator, intent: Intent, l: L.Ledger, b: P.Book, tol: NonNegative): (L.Ledger, P.Book)
    requires Trades(sim)
  {
    var after := Apply(sim, intent, LotMid(sim, intent.side, intent.notional), l, b, tol, 0.0);
    (after.0, after.1)
  }

  /** The book after one lot is what the book's own fill leaves. */
  lemma LotIsBooked(sim: Simulator, intent: Intent, l: L.Ledger, b: P.Book, tol: NonNegative)
    requires Possible(sim, intent, l, b)
    ensures FeeOn(intent.notional, sim.feeBps) >= 0.0
    ensures After(sim, intent, l, b, tol).1 ==
            P.ApplyFill(b, Upper(intent.asset), intent.side, sim.planner.lotStep, LotPrice(sim, intent.notional),
                        FeeOn(intent.notional, sim.feeBps), 0.0, None).0
  {
    OneLotCommits(sim, intent, l, b, tol);
    FeeOnLot(sim, intent.notional);
  }

  /** The cash it leaves. */
  lemma LotMovesCash(sim: Simulator, intent: Intent, l: L.Ledger, b: P.Book, tol: NonNegative)
    requires Possible(sim, intent, l, b)
    ensures After(sim, intent, l, b, tol).1.cash ==
            b.cash - Signed(intent.side, intent.notional) - FeeOn(intent.notional, sim.feeBps)
  {
    LotIsBooked(sim, intent, l, b, tol);
    var (lot, price, fee) := (sim.planner.lotStep, LotPrice(sim, intent.notional), FeeOn(intent.notional, sim.feeBps));
    var key := Upper(intent.asset);
    UpperIdempotent(intent.asset);
    P.FillEffect(b, key, intent.side, lot, price, fee, 0.0, None, key);
    CashOfMove(b, After(sim, intent, l, b, tol).1, intent.side, lot, price, intent.notional, fee);
  }

  lemma CashOfMove(b: P.Book, b': P.Book, side: Side, lot: real, price: real, notional: real, fee: real)
    requires P.AccountsMove(b, b', side, lot, price, fee, true) && Times(lot, price) == notional
    ensures b'.cash == b.cash - Signed(side, notional) - fee
  {
  }

  lemma FillIdsDiffer(a: string, d: string)
    requires a != d
    ensures PaperFillId(a) != PaperFillId(d)
  {
    var n := |PaperFillId("")|;
    assert PaperFillId(a)[n..] == a && PaperFillId(d)[n..] == d;
  }

  /** What the ledger holds after a first trade. */
  lemma FirstTradeListed(sim: Simulator, intent: Intent, b: P.Book, tol: NonNegative)
    requires Possible(sim, intent, L.EMPTY, b)
    ensures var (l, id) := (After(sim, intent, L.EMPTY, b, tol).0, sim.clientOrderId(intent.decisionId));
            l.processed == {PaperFillId(id)} && |l.orders| == 1 && l.orders[0].0 == id
  {
    OneLotCommits(sim, intent, L.EMPTY, b, tol);
    OneLotIsPlanned(sim, intent, b);
  }

  /** A first trade uses up its own decision and none with another client id. */
  lemma FirstTradeLeavesOthers(sim: Simulator, intent: Intent, b: P.Book, tol: NonNegative, d: string)
    requires Possible(sim, intent, L.EMPTY, b) && sim.clientOrderId(d) != sim.clientOrderId(intent.decisionId)
    ensures Unused(sim, After(sim, intent, L.EMPTY, b, tol).0, d)
  {
    var l := After(sim, intent, L.EMPTY, b, tol).0;
    AttemptKeepsOthersUnlisted(sim, intent, LotMid(sim, intent.side, intent.notional), L.EMPTY, b, tol, d);
    FirstTradeListed(sim, intent, b, tol);
    FillIdsDiffer(sim.clientOrderId(d), sim.clientOrderId(intent.decisionId));
    assert l.orders[1..] == [];
  }

  // ----- asking for one lot -----

  /** A cycle that neither withholds nor marks leaves what its fill leaves. */
  lemma QuietCycle(sim: Simulator, c: Settings, tol: real, l: L.Ledger, b: P.Book, y: Cycle,
                   b1: P.Book, s: P.Snapshot, intent: Intent)
    requires P.TakeSnapshot(b, y.snapshotAt) == (b1, Some(s))
    requires IntentFor(c, QueryOf(y, s), y.reduceOnly) == Some(intent)
    requires !y.execution.gates.Withhold() && y.last.None?
    ensures CycleStep(sim, c, tol, l, b, y) ==
            (Apply(sim, intent, y.execution.mid, l, b1, tol, y.execution.at).0,
             Apply(sim, intent, y.execution.mid, l, b1, tol, y.execution.at).1)
  {
  }

  lemma ApprovedIntent(c: Settings, q: Query, reduceOnly: bool)
    requires Approved(c, q) > 0.0
    ensures IntentFor(c, q, reduceOnly) ==
            Some(Intent(q.proposal.decisionId, q.proposal.asset, q.proposal.side, Approved(c, q), reduceOnly))
  {
    ApprovalBounds(c, q);
  }

  /** An approved request does what the trade does. */
  lemma AskedAndDone(sim: Simulator, c: Settings, tol: NonNegative, l: L.Ledger, b: P.Book, b1: P.Book, s: P.Snapshot,
                     d: string, asset: string, side: Side, notional: Positive)
    requires Trades(sim) && P.TakeSnapshot(b, 0.0) == (b1, Some(s))
    requires Approved(c, QueryOf(Ask(sim, d, asset, side, notional), s)) == notional
    ensures CycleStep(sim, c, tol, l, b, Ask(sim, d, asset, side, notional)) ==
            After(sim, IntentOf(d, asset, side, notional), l, b1, tol)
  {
    var y := Ask(sim, d, asset, side, notional);
    ApprovedIntent(c, QueryOf(y, s), false);
    QuietCycle(sim, c, tol, l, b, y, b1, s, IntentOf(d, asset, side, notional));
  }

  /** A book that has lost nothing and has a slot free for an asset it does not hold. */
  ghost predicate Untroubled(c: Settings, s: P.Snapshot, asset: string) {
    && s.observedAt == 0.0 && s.dailyPnl >= 0.0 && s.nav >= s.peakNav && Listed(c, asset)
    && Existing(s, asset) == 0.0 && OpenCount(s.exposures) < c.maxOpenPositions
  }

  lemma NoLoss(c: Settings, s: P.Snapshot)
    requires s.dailyPnl >= 0.0 && s.nav >= s.peakNav
    ensures !LostTheDay(c, s) && !DrawnDown(c, s)
  {
    ProductPositive(s.nav, c.maxDailyLossPct);
    SelfQuotient(s.peakNav);
    Divided(s.peakNav, s.nav, s.peakNav);
  }

  lemma RoomIsApproved(c: Settings, s: P.Snapshot, q: Query)
    requires q.snapshot == s && q.proposal.side == Buy && !q.halted && !q.tripped && q.features.None? && q.now == 0.0
    requires Untroubled(c, s, q.proposal.asset) && q.proposal.requested <= PositionCap(c, s)
    requires q.proposal.requested <= GrossRoom(c, s) && q.proposal.requested <= CashRoom(c, s)
    ensures Approved(c, q) == q.proposal.requested
  {
    NoLoss(c, s);
  }

  lemma HoldingIsSold(c: Settings, s: P.Snapshot, q: Query)
    requires q.snapshot == s && q.proposal.side == Sell && !q.halted && !q.tripped && q.features.None? && q.now == 0.0
    requires s.observedAt == 0.0 && Listed(c, q.proposal.asset) && Existing(s, q.proposal.asset) == q.proposal.requested
    ensures Approved(c, q) == q.proposal.requested
  {
  }

  lemma PartsOfOne(c: Settings)
    requires c.minCashReservePct < 1.0
    ensures 0.0 < LargestBuy(c) && 0.0 <= Cushion(c) && LargestBuy(c) + Cushion(c) <= 1.0
  {
  }

  lemma RoomForLargest(c: Settings, s: P.Snapshot)
    requires Adds(s) && s.cash >= Times(s.nav, LargestBuy(c)) + Times(s.nav, Cushion(c))
    ensures Times(s.nav, LargestBuy(c)) <= PositionCap(c, s)
    ensures Times(s.nav, LargestBuy(c)) <= GrossRoom(c, s) && Times(s.nav, LargestBuy(c)) <= CashRoom(c, s)
  {
    ProductGrows(s.nav, LargestBuy(c), c.maxPositionPct);
    ProductGrows(s.nav, c.minCashReservePct, Cushion(c));
    ProductGrows(s.nav, 1.0 - c.maxGrossExposurePct, Cushion(c));
    PartLeft(s.nav, c.maxGrossExposurePct);
  }

  /** A buy of at most the largest is approved when cash holds the largest and the cushion. */
  lemma LargestIsApproved(c: Settings, s: P.Snapshot, q: Query)
    requires q.snapshot == s && q.proposal.side == Buy && !q.halted && !q.tripped && q.features.None? && q.now == 0.0
    requires Untroubled(c, s, q.proposal.asset) && Adds(s)
    requires s.cash >= Times(s.nav, LargestBuy(c)) + Times(s.nav, Cushion(c))
    requires q.proposal.requested <= Times(s.nav, LargestBuy(c))
    ensures Approved(c, q) == q.proposal.requested
  {
    RoomForLargest(c, s);
    RoomIsApproved(c, s, q);
  }

  // ----- the books on the way -----

  /** One asset held, nothing else ever traded, still on the first day of a book that opened with `start`. */
  ghost predicate OneHolding(b: P.Book, start: Positive, key: string, lot: Positive, price: Positive, cash: real) {
    && b.cash == cash && |b.positions| == 1 && b.positions[0].0 == key && b.positions[0].1.quantity == lot
    && b.marks == [(key, price)] && b.peakNav == start && b.dayStartNav == start && b.dayStartDate == Some(P.DayOf(0.0))
  }

  ghost function FirstDay(start: Positive): P.Book { P.Opening(start).(dayStartDate := Some(P.DayOf(0.0))) }

  /** A new book's first snapshot. */
  lemma OpeningSnapshot(start: Positive) returns (s: P.Snapshot)
    ensures P.TakeSnapshot(P.Opening(start), 0.0) == (FirstDay(start), Some(s))
    ensures s.nav == start && s.cash == start && s.dailyPnl == 0.0 && s.peakNav == start
    ensures s.exposures == [] && s.observedAt == 0.0
  {
    s := P.TakeSnapshot(P.Opening(start), 0.0).1.value;
  }

  lemma FirstBuyHolds(start: Positive, key: string, lot: Positive, price: Positive, fee: NonNegative)
    requires Upper(key) == key
    ensures OneHolding(P.ApplyFill(FirstDay(start), key, Buy, lot, price, fee, 0.0, None).0, start, key, lot, price,
                       start - Times(lot, price) - fee)
  {
    var b' := P.Buying(FirstDay(start), key, lot, price, fee, 0.0, None);
    assert b'.positions == [(key, P.Bought(P.FLAT, lot, price, fee, 0.0, None))];
    var b2 := P.Marked(b', key, price);
    assert |b2.positions| == 1 && b2.positions[0].0 == key && b2.positions[0].1.quantity == lot && b2.marks ==
        [(key, price)];
    HoldingNav(b2, key, lot, price);
  }

  lemma HoldingNav(b: P.Book, key: string, lot: Positive, price: Positive)
    requires |b.positions| == 1 && b.positions[0].0 == key && b.positions[0].1.quantity == lot && b.marks ==
        [(key, price)]
    ensures P.Nav(b) == b.cash + Times(lot, price)
    ensures P.Exposures(b.positions, b.marks) == [(key, P.Exposure(b.marks, key, b.positions[0].1))]
    ensures P.Exposure(b.marks, key, b.positions[0].1) as real == Times(lot, price)
  {
    assert b.positions[1..] == [];
    assert Sum(b.positions[1..], P.Worth(b.marks)) == 0.0 && P.Exposures(b.positions[1..], b.marks) == [];
    ProductPositive(lot, price);
  }

  lemma RemarkHolds(b: P.Book, start: Positive, key: string, lot: Positive, was: Positive, price: Positive, cash: real)
    requires Upper(key) == key && OneHolding(b, start, key, lot, was, cash)
    ensures OneHolding(P.Mark(b, key, price).0, start, key, lot, price, cash)
  {
  }

  ghost predicate ShowsHolding(s: P.Snapshot, start: real, key: string, worth: real, cash: real) {
    && s.nav == cash + worth && s.cash == cash && s.dailyPnl == s.nav - start && s.peakNav == start
    && |s.exposures| == 1 && s.exposures[0].0 == key && s.exposures[0].1 as real == worth && s.observedAt == 0.0
  }

  lemma HoldingSnapshot(b: P.Book, start: Positive, key: string, lot: Positive, price: Positive, cash: NonNegative)
    returns (s: P.Snapshot)
    requires OneHolding(b, start, key, lot, price, cash)
    ensures P.TakeSnapshot(b, 0.0) == (b, Some(s)) && ShowsHolding(s, start, key, Times(lot, price), cash)
  {
    HoldingNav(b, key, lot, price);
    ProductPositive(lot, price);
    s := P.TakeSnapshot(b, 0.0).1.value;
  }

  lemma ShownHolding(s: P.Snapshot, start: real, key: string, worth: real, cash: real, q: string)
    requires ShowsHolding(s, start, key, worth, cash) && worth > 0.0
    ensures Existing(s, q) as real == (if Upper(q) == key then worth else 0.0)
    ensures OpenCount(s.exposures) == 1 && Gross(s.exposures) == worth
  {
    assert s.exposures[1..] == [];
    assert Get<NonNegative>(s.exposures[1..], Upper(q)).None? && OpenCount(s.exposures[1..]) == 0;
    assert Sum<NonNegative>(s.exposures[1..], P.AMOUNT) == 0.0;
  }

  lemma HoldsLot(b: P.Book, start: Positive, key: string, lot: Positive, price: Positive, cash: real)
    requires OneHolding(b, start, key, lot, price, cash)
    ensures P.PositionOf(b, key).quantity == lot
  {
  }

  // ----- runs -----

  lemma RunAppend(sim: Simulator, c: Settings, tol: real, s: (L.Ledger, P.Book), es: seq<Event>, e: Event)
    ensures Run(sim, c, tol, s, es + [e]) == Step(sim, c, tol, Run(sim, c, tol, s, es), e)
  {
    assert (es + [e])[..|es|] == es;
  }

  ghost predicate Overdraws(c: Settings, sim: Simulator, start: Positive, es: seq<Event>) {
    FreshDecisions(L.EMPTY, es) && !Solvent(Run(sim, c, 0.0, (L.EMPTY, P.Opening(start)), es).1)
  }

  /** Two decisions the simulator can tell apart. */
  ghost predicate Apart(sim: Simulator, d1: string, d2: string) { sim.clientOrderId(d1) != sim.clientOrderId(d2) }

  lemma OneEventOverdraws(c: Settings, sim: Simulator, start: Positive, y: Cycle)
    requires !Solvent(CycleStep(sim, c, 0.0, L.EMPTY, P.Opening(start), y).1)
    ensures Overdraws(c, sim, start, [Traded(y)])
  {
    RunAppend(sim, c, 0.0, (L.EMPTY, P.Opening(start)), [], Traded(y));
    assert [] + [Traded(y)] == [Traded(y)];
  }

  lemma ThreeFresh(y1: Cycle, asset: string, mark: Positive, y2: Cycle)
    requires y1.proposal.decisionId != y2.proposal.decisionId
    ensures FreshDecisions(L.EMPTY, [Traded(y1), Marked(asset, mark), Traded(y2)])
  {
  }

  lemma ThreeEventsOverdraw(c: Settings, sim: Simulator, start: Positive, y1: Cycle, asset: string, mark: Positive,
                            y2: Cycle, s1: (L.Ledger, P.Book), s2: (L.Ledger, P.Book), s3: (L.Ledger, P.Book))
    requires y1.proposal.decisionId != y2.proposal.decisionId
    requires s1 == Step(sim, c, 0.0, (L.EMPTY, P.Opening(start)), Traded(y1))
    requires s2 == Step(sim, c, 0.0, s1, Marked(asset, mark))
    requires s3 == Step(sim, c, 0.0, s2, Traded(y2)) && !Solvent(s3.1)
    ensures Overdraws(c, sim, start, [Traded(y1), Marked(asset, mark), Traded(y2)])
  {
    ThreeFresh(y1, asset, mark, y2);
    var (s0, e1, e2, e3) := ((L.EMPTY, P.Opening(start)), Traded(y1), Marked(asset, mark), Traded(y2));
    RunAppend(sim, c, 0.0, s0, [], e1);
    RunAppend(sim, c, 0.0, s0, [e1], e2);
    RunAppend(sim, c, 0.0, s0, [e1, e2], e3);
    assert [] + [e1] == [e1] && [e1] + [e2] == [e1, e2] && [e1, e2] + [e3] == [e1, e2, e3];
  }

  // ----- three ways to overdraw -----

  /** From a new book, a first buy of at most the largest leaves one holding. */
  lemma FirstBuy(c: Settings, sim: Simulator, start: Positive, notional: Positive, asset: string, d: string,
                 next: string)
    requires Trades(sim) && Listed(c, asset) && c.maxOpenPositions >= 1 && c.minCashReservePct < 1.0
        && Apart(sim, next, d)
    requires sim.planner.minNotional <= notional <= Times(start, LargestBuy(c))
    ensures var (l, b) := CycleStep(sim, c, 0.0, L.EMPTY, P.Opening(start), Ask(sim, d, asset, Buy, notional));
            && OneHolding(b, start, asset, sim.planner.lotStep, LotPrice(sim, notional),
                          start - notional - FeeOn(notional, sim.feeBps))
            && Unused(sim, l, next)
  {
    var s := OpeningSnapshot(start);
    var (y, intent) := (Ask(sim, d, asset, Buy, notional), IntentOf(d, asset, Buy, notional));
    AllCashHoldsLargest(c, start);
    LargestIsApproved(c, s, QueryOf(y, s));
    AskedAndDone(sim, c, 0.0, L.EMPTY, P.Opening(start), FirstDay(start), s, d, asset, Buy, notional);
    LotIsBooked(sim, intent, L.EMPTY, FirstDay(start), 0.0);
    FirstTradeLeavesOthers(sim, intent, FirstDay(start), 0.0, next);
    FirstBuyHolds(start, asset, sim.planner.lotStep, LotPrice(sim, notional), FeeOn(notional, sim.feeBps));
  }

  lemma AllCashHoldsLargest(c: Settings, start: Positive)
    requires c.minCashReservePct < 1.0
    ensures start >= Times(start, LargestBuy(c)) + Times(start, Cushion(c))
  {
    PartsOfOne(c);
    ProductGrows(start, LargestBuy(c) + Cushion(c), 1.0);
    PartsAdd(start, LargestBuy(c), Cushion(c));
  }

  lemma PartsAdd(nav: real, a: real, b: real)
    ensures Times(nav, a) + Times(nav, b) == Times(nav, a + b)
  {
  }

  /** The opening value of which a part is the smallest order. */
  ghost function StartFor(sim: Simulator, part: Positive): (start: Positive)
    ensures Times(start, part) == sim.planner.minNotional
  {
    QuotientPositive(sim.planner.minNotional, part);
    Over(sim.planner.minNotional, part)
  }

  /** The fee on the largest buy does not fit into what the buy leaves: the first buy overdraws. */
  lemma OverdrawnAtOnce(c: Settings, sim: Simulator, asset: string, d: string, next: string)
    returns (start: Positive, es: seq<Event>)
    requires Trades(sim) && Listed(c, asset) && c.maxOpenPositions >= 1 && c.minCashReservePct < 1.0
        && Apart(sim, next, d)
    requires FeeOn(LargestBuy(c), sim.feeBps) > 1.0 - LargestBuy(c)
    ensures Overdraws(c, sim, start, es)
  {
    PartsOfOne(c);
    start := StartFor(sim, LargestBuy(c));
    var notional := sim.planner.minNotional;
    var y := Ask(sim, d, asset, Buy, notional);
    FirstBuy(c, sim, start, notional, asset, d, next);
    MoreThanAll(start, LargestBuy(c), sim.feeBps);
    OneEventOverdraws(c, sim, start, y);
    es := [Traded(y)];
  }

  lemma MoreThanAll(start: Positive, part: real, feeBps: real)
    requires FeeOn(part, feeBps) > 1.0 - part
    ensures start - Times(start, part) - FeeOn(Times(start, part), feeBps) < 0.0
  {
    FeeScales(start, part, feeBps);
    OutOfCushion(start, FeeOn(part, feeBps), 1.0 - part);
    PartLeft(start, part);
  }

  lemma OutOfCushion(nav: Positive, a: real, b: real)
    requires a > b
    ensures Times(nav, a) > Times(nav, b)
  {
    ProductPositive(nav, a - b);
    assert Times(nav, a) - Times(nav, b) == nav * (a - b);
  }

  /** One more trade from a one-holding book, once approved, moves its cash by the trade and its fee. */
  lemma NextTrade(c: Settings, sim: Simulator, l: L.Ledger, b: P.Book, s: P.Snapshot, d: string, asset: string,
                  side: Side, notional: Positive)
    requires Possible(sim, IntentOf(d, asset, side, notional), l, b) && P.TakeSnapshot(b, 0.0) == (b, Some(s))
    requires Approved(c, QueryOf(Ask(sim, d, asset, side, notional), s)) == notional
    ensures CycleStep(sim, c, 0.0, l, b, Ask(sim, d, asset, side, notional)).1.cash ==
            b.cash - Signed(side, notional) - FeeOn(notional, sim.feeBps)
  {
    AskedAndDone(sim, c, 0.0, l, b, b, s, d, asset, side, notional);
    LotMovesCash(sim, IntentOf(d, asset, side, notional), l, b, 0.0);
  }

  /** The other asset holds exactly what leaves largest buy and cushion in cash: the full buy overdraws. */
  lemma FullBuyOverdraws(c: Settings, sim: Simulator, l: L.Ledger, b: P.Book, start: Positive, asset: string,
                         other: string, mark: Positive, nav: Positive, full: Positive, d: string)
    requires Trades(sim) && Listed(c, asset) && asset != other && c.maxOpenPositions >= 2 && c.minCashReservePct < 1.0
    requires FeeOn(LargestBuy(c), sim.feeBps) > Cushion(c) && Unused(sim, l, d)
    requires OneHolding(b, start, other, sim.planner.lotStep, mark, Times(nav, LargestBuy(c)) + Times(nav, Cushion(c)))
    requires nav >= start && Times(sim.planner.lotStep, mark) == nav - b.cash > 0.0
    requires full == Times(nav, LargestBuy(c)) >= sim.planner.minNotional
    ensures !Solvent(CycleStep(sim, c, 0.0, l, b, Ask(sim, d, asset, Buy, full)).1)
  {
    PartsOfOne(c);
    ProductGrows(nav, 0.0, Cushion(c));
    var s := HoldingSnapshot(b, start, other, sim.planner.lotStep, mark, b.cash);
    ShownHolding(s, start, other, nav - b.cash, b.cash, asset);
    LargestIsApproved(c, s, QueryOf(Ask(sim, d, asset, Buy, full), s));
    NextTrade(c, sim, l, b, s, d, asset, Buy, full);
    FeeScales(nav, LargestBuy(c), sim.feeBps);
    OutOfCushion(nav, FeeOn(LargestBuy(c), sim.feeBps), Cushion(c));
  }

  lemma SpareCash(start: Positive, part: Positive, spare: real, notional: real, fee: real)
    requires notional == Times(start, part) && fee <= notional && 2.0 * part <= 1.0 - spare
    ensures start - notional - fee >= Times(start, spare)
  {
    ProductGrows(start, spare, 1.0 - 2.0 * part);
    assert Times(start, 1.0 - 2.0 * part) == start - 2.0 * Times(start, part);
  }

  /** The value of which the cash is the given part. */
  lemma GrownNav(start: Positive, cash: real, part: Positive) returns (nav: Positive)
    requires cash >= Times(start, part) && part < 1.0
    ensures Times(nav, part) == cash && nav >= start && nav > cash
  {
    ProductPositive(start, part);
    QuotientPositive(cash, part);
    nav := Over(cash, part);
    NoSmaller(start, nav, part);
    PartLeft(nav, part);
    ProductPositive(nav, 1.0 - part);
  }

  lemma NoSmaller(a: real, b: real, k: Positive)
    requires Times(a, k) <= Times(b, k)
    ensures a <= b
  {
    assert Times(a, k) - Times(b, k) == (a - b) * k;
    if a > b {
      ProductPositive(a - b, k);
    }
  }

  /** A first buy so small that its fee is forgotten: the book can be re-marked to no less than it opened with,
      with the largest buy and the cushion left in cash. */
  lemma SmallFirstBuy(c: Settings, sim: Simulator) returns (start: Positive, nav: Positive, mark: Positive)
    requires c.minCashReservePct < 1.0 && sim.feeBps <= 10000.0 && LargestBuy(c) + Cushion(c) < 1.0
    ensures sim.planner.minNotional <= Times(start, LargestBuy(c)) <= Times(nav, LargestBuy(c)) && nav >= start
    ensures start - sim.planner.minNotional - FeeOn(sim.planner.minNotional, sim.feeBps)
            == Times(nav, LargestBuy(c)) + Times(nav, Cushion(c))
    ensures Times(sim.planner.lotStep, mark)
            == nav - (start - sim.planner.minNotional - FeeOn(sim.planner.minNotional, sim.feeBps)) > 0.0
  {
    PartsOfOne(c);
    var notional, spare: Positive := sim.planner.minNotional, LargestBuy(c) + Cushion(c);
    var part: Positive := Min(LargestBuy(c) / 4.0, (1.0 - spare) / 2.0);
    start := StartFor(sim, part);
    FeeBelowNotional(notional, sim.feeBps);
    var cash := start - notional - FeeOn(notional, sim.feeBps);
    SpareCash(start, part, spare, notional, FeeOn(notional, sim.feeBps));
    nav := GrownNav(start, cash, spare);
    PartsAdd(nav, LargestBuy(c), Cushion(c));
    ProductGrows(start, part, LargestBuy(c));
    ProductGrows(LargestBuy(c), start, nav);
    mark := LotPrice(sim, nav - cash);
  }

  lemma OverdrawnByTheSecond(c: Settings, sim: Simulator, asset: string, other: string, d1: string, d2: string)
    returns (start: Positive, es: seq<Event>)
    requires Trades(sim) && Listed(c, asset) && Listed(c, other) && asset != other && c.maxOpenPositions >= 2
    requires c.minCashReservePct < 1.0 && Apart(sim, d2, d1) && sim.feeBps <= 10000.0
    requires LargestBuy(c) + Cushion(c) < 1.0 && FeeOn(LargestBuy(c), sim.feeBps) > Cushion(c)
    ensures Overdraws(c, sim, start, es)
  {
    var nav, mark;
    start, nav, mark := SmallFirstBuy(c, sim);
    PartsOfOne(c);
    ProductPositive(nav, LargestBuy(c));
    var full: Positive := Times(nav, LargestBuy(c));
    var notional := sim.planner.minNotional;
    var (y1, y2) := (Ask(sim, d1, other, Buy, notional), Ask(sim, d2, asset, Buy, full));
    FirstBuy(c, sim, start, notional, other, d1, d2);
    var s1 := CycleStep(sim, c, 0.0, L.EMPTY, P.Opening(start), y1);
    RemarkHolds(s1.1, start, other, sim.planner.lotStep, LotPrice(sim, notional), mark, s1.1.cash);
    var s2 := (s1.0, P.Mark(s1.1, other, mark).0);
    FullBuyOverdraws(c, sim, s2.0, s2.1, start, asset, other, mark, nav, full, d2);
    ThreeEventsOverdraw(c, sim, start, y1, other, mark, y2, s1, s2, CycleStep(sim, c, 0.0, s2.0, s2.1, y2));
    es := [Traded(y1), Marked(other, mark), Traded(y2)];
  }

  lemma FeeAboveNotional(notional: Positive, feeBps: real)
    requires feeBps > 10000.0
    ensures FeeOn(notional, feeBps) > notional
  {
    ProductPositive(notional, feeBps - 10000.0);
    assert notional * feeBps - notional * 10000.0 == notional * (feeBps - 10000.0);
  }

  /** How much a holding must be worth for the fee on selling it to eat the cash. */
  lemma LosingWorth(notional: Positive, feeBps: NonNegative, cash: real) returns (worth: Positive)
    requires feeBps > 10000.0 && cash >= 0.0
    ensures worth >= notional && cash + worth - FeeOn(worth, feeBps) < 0.0
  {
    FeeAboveNotional(notional, feeBps);
    var loss: Positive := FeeOn(notional, feeBps) - notional;
    var times: Positive := 1.0 + cash / loss;
    ProductGrows(notional, 1.0, times);
    worth := Times(times, notional);
    FeeScales(times, notional, feeBps);
    assert Times(times, FeeOn(notional, feeBps)) - Times(times, notional) == times * loss;
    assert times * loss == loss + cash;
  }

  lemma SaleOverdraws(c: Settings, sim: Simulator, l: L.Ledger, b: P.Book, start: Positive, asset: string,
                      mark: Positive, cash: NonNegative, worth: Positive, d: string)
    requires Trades(sim) && Listed(c, asset) && Unused(sim, l, d) && worth >= sim.planner.minNotional
    requires OneHolding(b, start, asset, sim.planner.lotStep, mark, cash) && Times(sim.planner.lotStep, mark) == worth
    requires cash + worth - FeeOn(worth, sim.feeBps) < 0.0
    ensures !Solvent(CycleStep(sim, c, 0.0, l, b, Ask(sim, d, asset, Sell, worth)).1)
  {
    var s := HoldingSnapshot(b, start, asset, sim.planner.lotStep, mark, cash);
    ShownHolding(s, start, asset, worth, cash, asset);
    HoldingIsSold(c, s, QueryOf(Ask(sim, d, asset, Sell, worth), s));
    HoldsLot(b, start, asset, sim.planner.lotStep, mark, cash);
    NextTrade(c, sim, l, b, s, d, asset, Sell, worth);
  }

  /** A fee above the whole notional: buying, marking up and selling overdraws. */
  lemma OverdrawnBySelling(c: Settings, sim: Simulator, asset: string, d1: string, d2: string)
    returns (start: Positive, es: seq<Event>)
    requires Trades(sim) && Listed(c, asset) && c.maxOpenPositions >= 1 && c.minCashReservePct < 1.0
        && Apart(sim, d2, d1)
    requires sim.feeBps > 10000.0 && FeeOn(LargestBuy(c), sim.feeBps) <= 1.0 - LargestBuy(c)
    ensures Overdraws(c, sim, start, es)
  {
    PartsOfOne(c);
    start := StartFor(sim, LargestBuy(c));
    var notional := sim.planner.minNotional;
    NoMoreThanAll(start, LargestBuy(c), sim.feeBps);
    var cash := start - notional - FeeOn(notional, sim.feeBps);
    var worth := LosingWorth(notional, sim.feeBps, cash);
    var mark := LotPrice(sim, worth);
    var (y1, y2) := (Ask(sim, d1, asset, Buy, notional), Ask(sim, d2, asset, Sell, worth));
    FirstBuy(c, sim, start, notional, asset, d1, d2);
    var s1 := CycleStep(sim, c, 0.0, L.EMPTY, P.Opening(start), y1);
    RemarkHolds(s1.1, start, asset, sim.planner.lotStep, LotPrice(sim, notional), mark, cash);
    var s2 := (s1.0, P.Mark(s1.1, asset, mark).0);
    SaleOverdraws(c, sim, s2.0, s2.1, start, asset, mark, cash, worth, d2);
    ThreeEventsOverdraw(c, sim, start, y1, asset, mark, y2, s1, s2, CycleStep(sim, c, 0.0, s2.0, s2.1, y2));
    es := [Traded(y1), Marked(asset, mark), Traded(y2)];
  }

  lemma NoMoreThanAll(start: Positive, part: real, feeBps: real)
    requires FeeOn(part, feeBps) <= 1.0 - part
    ensures start - Times(start, part) - FeeOn(Times(start, part), feeBps) >= 0.0
  {
    FeeScales(start, part, feeBps);
    ProductGrows(start, FeeOn(part, feeBps), 1.0 - part);
    PartLeft(start, part);
  }

  // ----- the exact condition -----

  /** What the fee must fit into: with two assets the cushion, with one what its largest buy leaves. */
  ghost predicate FeesFitLimits(c: Settings, feeBps: real) {
    if Diverse(c) then FeesFit(c, feeBps) else FeesFitAlone(c, feeBps)
  }

  lemma OverdraftFound(c: Settings, sim: Simulator, asset: string, d1: string, d2: string)
    returns (start: Positive, es: seq<Event>)
    requires Trades(sim) && Listed(c, asset) && c.maxOpenPositions >= 1 && c.minCashReservePct < 1.0
        && Apart(sim, d2, d1)
    requires !FeesFitLimits(c, sim.feeBps)
    ensures Overdraws(c, sim, start, es)
  {
    PartsOfOne(c);
    if FeeOn(LargestBuy(c), sim.feeBps) > 1.0 - LargestBuy(c) {
      start, es := OverdrawnAtOnce(c, sim, asset, d1, d2);
    } else if sim.feeBps > 10000.0 {
      start, es := OverdrawnBySelling(c, sim, asset, d1, d2);
    } else {
      var a, o :| Listed(c, a) && Listed(c, o) && a != o;
      start, es := OverdrawnByTheSecond(c, sim, a, o, d1, d2);
    }
  }

  /** Solvency, exactly: for a simulator that trades, and limits that list an asset, give it a slot and do not
      keep the whole book in reserve, no run of cycles with fresh decisions and arbitrary marks takes any new
      book's cash below zero if and only if fees fit the limits. */
  lemma SolventExactlyWhenFeesFit(c: Settings, sim: Simulator, asset: string, d1: string, d2: string)
    requires Trades(sim) && Listed(c, asset) && c.maxOpenPositions >= 1 && c.minCashReservePct < 1.0
        && Apart(sim, d2, d1)
    ensures (forall tol: real, nav: Positive, es: seq<Event> :: FreshDecisions(L.EMPTY, es) ==>
               Solvent(Run(sim, c, tol, (L.EMPTY, P.Opening(nav)), es).1))
            <==> FeesFitLimits(c, sim.feeBps)
  {
    if FeesFitLimits(c, sim.feeBps) {
      forall tol: real, nav: Positive, es: seq<Event> | FreshDecisions(L.EMPTY, es)
        ensures Solvent(Run(sim, c, tol, (L.EMPTY, P.Opening(nav)), es).1)
      {
        if Diverse(c) {
          CashNeverNegative(sim, c, tol, L.EMPTY, P.Opening(nav), es);
        } else {
          AloneCashNeverNegative(sim, c, tol, nav, es);
        }
      }
    } else {
      var start, es := OverdraftFound(c, sim, asset, d1, d2);
      assert Overdraws(c, sim, start, es);
      assert !Solvent(Run(sim, c, 0.0, (L.EMPTY, P.Opening(start)), es).1);
    }
  }
}
