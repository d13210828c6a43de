/** One service cycle from snapshot to mark, and why no run of cycles overdraws the book. */
module Solvency {
  import opened Common
  import opened Dictionary
  import opened Planning
  import opened PaperFills
  import opened Risk
  import R = BookOfRecord
  import L = Ledgers
  import P = Portfolio

  /** What may withhold a fill after every decision has been taken. */
  datatype Gates = Gates(
    notPaper: bool, diagnostic: bool, noSimulator: bool, killEngaged: bool, reconciliationBlocked: bool,
        durableStateTorn: bool)
  {
    predicate Withhold() {
      notPaper || diagnostic || noSimulator || killEngaged || reconciliationBlocked || durableStateTorn
    }
  }

  const OPEN_GATES := Gates(false, false, false, false, false, false)

  /** What the fill step reads from outside: the gates, the mid and the clock. */
  datatype Execution = Execution(gates: Gates, mid: real, at: real)

  /** A cycle reduced to the question put to the risk engine, whatever strategy asked it, and the
      surroundings. `last` is the tick's last price when its market data was accepted. */
  datatype Cycle = Cycle(
    proposal: Proposal, features: Option<Features>, halted: bool, tripped: bool, reduceOnly: bool,
    snapshotAt: real, evaluatedAt: real, execution: Execution, last: Option<real>)

  function QueryOf(y: Cycle, s: P.Snapshot): Query {
    Query(y.halted, y.tripped, y.proposal, s, y.features, y.evaluatedAt)
  }

  /** Ledger and book after the fill step; the flag says whether it raised. */
  function FillStep(sim: Simulator, tol: real, intent: Option<Intent>, e: Execution, l: L.Ledger, b: P.Book):
    (L.Ledger, P.Book, bool)
  {
    if intent.None? || e.gates.Withhold() then (l, b, false)
    else
      var (l', b', outcome) := Apply(sim, intent.value, e.mid, l, b, tol, e.at);
      (l', b', outcome.Raised?)
  }

  /** Snapshot, evaluate, fill, mark; an error anywhere ends the cycle with what was already done. */
  function CycleStep(sim: Simulator, c: Settings, tol: real, l: L.Ledger, b: P.Book, y: Cycle): (L.Ledger, P.Book) {
    var (b1, snapshot) := P.TakeSnapshot(b, y.snapshotAt);
    if snapshot.None? then (l, b1)
    else
      var (l2, b2, raised) := FillStep(sim, tol, IntentFor(c, QueryOf(y, snapshot.value), y.reduceOnly), y.execution, l,
                                       b1);
      if raised || y.last.None? then (l2, b2)
      else (l2, P.Mark(b2, y.proposal.asset, y.last.value).0)
  }

  // ----- one fill -----

  /** The largest part of the book one buy can be: what position, gross and cash limits all allow. */
  function LargestBuy(c: Settings): real {
    Min(c.maxPositionPct, Min(c.maxGrossExposurePct, 1.0 - c.minCashReservePct))
  }

  /** The part of the book that stays in cash before any fee: the reserve, or what gross exposure leaves. */
  function Cushion(c: Settings): real {
    Max(c.minCashReservePct, 1.0 - c.maxGrossExposurePct)
  }

  /** No fee eats a whole sale, and the fee on the largest buy fits into the cushion. */
  ghost predicate FeesFit(c: Settings, feeBps: real) {
    feeBps <= 10000.0 && FeeOn(LargestBuy(c), feeBps) <= Cushion(c)
  }

  ghost function FeeOn(notional: real, feeBps: real): real { notional * feeBps / 10000.0 }

  lemma FeeBelowNotional(notional: real, feeBps: real)
    requires notional >= 0.0 && 0.0 <= feeBps <= 10000.0
    ensures FeeOn(notional, feeBps) <= notional
  {
    assert notional * feeBps <= notional * 10000.0;
  }

  lemma FeeGrows(a: real, b: real, feeBps: real)
    requires a <= b && feeBps >= 0.0
    ensures FeeOn(a, feeBps) <= FeeOn(b, feeBps)
  {
    assert a * feeBps <= b * feeBps;
  }

  lemma FeeScales(nav: real, part: real, feeBps: real)
    ensures FeeOn(Times(nav, part), feeBps) == Times(nav, FeeOn(part, feeBps))
  {
  }

  lemma PartLeft(nav: real, part: real)
    ensures Times(nav, 1.0 - part) == nav - Times(nav, part)
  {
  }

  /** What a snapshot of a solvent book shows: its value is its cash and its exposures. */
  ghost predicate Adds(s: P.Snapshot) { s.nav == s.cash + Gross(s.exposures) }

  lemma {:induction false} GrossNonNegative(exposures: Dict<NonNegative>)
    ensures Gross(exposures) >= 0.0
  {
    if exposures != [] {
      GrossNonNegative(exposures[1..]);
    }
  }

  /** An approved buy is no larger than the largest, and leaves the cushion in cash. */
  lemma ApprovedBuyIsBounded(c: Settings, q: Query, notional: real)
    requires Adds(q.snapshot) && q.proposal.side == Buy && 0.0 < notional <= Approved(c, q)
    ensures notional <= Times(q.snapshot.nav, LargestBuy(c))
    ensures notional <= q.snapshot.cash - Times(q.snapshot.nav, Cushion(c))
  {
    AddingStaysInside(c, q);
    InsideIsBounded(c, q.snapshot, Approved(c, q), Existing(q.snapshot, q.proposal.asset), notional);
  }

  lemma InsideIsBounded(c: Settings, s: P.Snapshot, approved: real, existing: NonNegative, notional: real)
    requires Adds(s) && notional <= approved && approved <= s.cash - CashFloor(c, s)
    requires approved + existing <= PositionCap(c, s) && approved + Gross(s.exposures) <= GrossCap(c, s)
    ensures notional <= Times(s.nav, LargestBuy(c)) && notional <= s.cash - Times(s.nav, Cushion(c))
  {
    GrossNonNegative(s.exposures);
    BoundsMeet(c, s.nav, s.cash, notional);
  }

  lemma BoundsMeet(c: Settings, nav: real, cash: real, notional: real)
    requires cash <= nav && notional <= Times(nav, c.maxPositionPct)
    requires notional <= cash - Times(nav, c.minCashReservePct)
    requires notional + (nav - cash) <= Times(nav, c.maxGrossExposurePct)
    ensures notional <= Times(nav, LargestBuy(c)) && notional <= cash - Times(nav, Cushion(c))
  {
    PartLeft(nav, c.minCashReservePct);
    PartLeft(nav, c.maxGrossExposurePct);
  }

  /** What is approved can be paid for, fee included. */
  ghost predicate Affordable(c: Settings, q: Query, feeBps: real) {
    q.proposal.side == Buy ==> Approved(c, q) + FeeOn(Approved(c, q), feeBps) <= q.snapshot.cash
  }

  /** A buy the engine approves leaves cash at or above zero, fee included, when fees fit. */
  lemma ApprovedBuyIsAffordable(c: Settings, q: Query, feeBps: NonNegative)
    requires FeesFit(c, feeBps) && Adds(q.snapshot)
    ensures Affordable(c, q, feeBps)
  {
    ApprovalBounds(c, q);
    if q.proposal.side == Buy && Approved(c, q) > 0.0 {
      ApprovedBuyIsBounded(c, q, Approved(c, q));
      FeeFits(c, q.snapshot.nav, feeBps, Approved(c, q));
    }
  }

  lemma FeeFits(c: Settings, nav: Positive, feeBps: NonNegative, notional: real)
    requires FeesFit(c, feeBps) && notional <= Times(nav, LargestBuy(c))
    ensures FeeOn(notional, feeBps) <= Times(nav, Cushion(c))
  {
    FeeGrows(notional, Times(nav, LargestBuy(c)), feeBps);
    FeeScales(nav, LargestBuy(c), feeBps);
    ProductGrows(nav, FeeOn(LargestBuy(c), feeBps), Cushion(c));
  }

  lemma FeeFormula(f: L.Fill, feeBps: NonNegative)
    ensures ModelledFee(f.quantity, f.priceUsd, feeBps) == FeeOn(f.Notional(), feeBps)
    ensures f.Notional() > 0.0
  {
  }

  lemma MoveIsSolvent(b: P.Book, b': P.Book, f: L.Fill, feeBps: NonNegative, taken: bool)
    requires P.AccountsMove(b, b', f.side, f.quantity, f.priceUsd, f.feeUsd, taken) && b.cash >= 0.0
    requires f.feeUsd == FeeOn(f.Notional(), feeBps) && feeBps <= 10000.0 && f.Notional() > 0.0
    requires f.side == Buy ==> b.cash - f.Notional() - FeeOn(f.Notional(), feeBps) >= 0.0
    ensures b'.cash >= 0.0
  {
    FeeBelowNotional(f.Notional(), feeBps);
  }

  /** What a committed fill does to cash. */
  lemma CashAfter(b: P.Book, f: L.Fill, now: real, feeBps: NonNegative)
    requires f.feeUsd == ModelledFee(f.quantity, f.priceUsd, feeBps) && feeBps <= 10000.0 && b.cash >= 0.0
    requires Upper(f.asset) == f.asset
    requires f.side == Buy ==> b.cash - f.Notional() - FeeOn(f.Notional(), feeBps) >= 0.0
    ensures P.ApplyFill(b, f.asset, f.side, f.quantity, f.priceUsd, f.feeUsd, now, None).0.cash >= 0.0
  {
    var after := P.ApplyFill(b, f.asset, f.side, f.quantity, f.priceUsd, f.feeUsd, now, None);
    R.FillMovesAccounts(b, f, now);
    FeeFormula(f, feeBps);
    MoveIsSolvent(b, after.0, f, feeBps, after.1.None?);
  }

  // ----- one cycle -----

  ghost predicate Solvent(b: P.Book) { b.cash >= 0.0 }

  lemma SnapshotCash(b: P.Book, at: real)
    requires Solvent(b)
    ensures var (b1, s) := P.TakeSnapshot(b, at);
            b1.cash == b.cash && (s.Some? ==> s.value.cash == b.cash && Adds(s.value))
  {
    var b1 := P.TakeSnapshot(b, at).0;
    P.ExposuresSumToWorth(b1.positions, b1.marks);
  }

  lemma IntentIsApproval(c: Settings, y: Cycle, s: P.Snapshot)
    ensures var intent := IntentFor(c, QueryOf(y, s), y.reduceOnly);
            intent.Some? ==>
              && intent.value.notional == Approved(c, QueryOf(y, s))
              && intent.value.side == y.proposal.side && intent.value.decisionId == y.proposal.decisionId
  {
  }

  lemma FreshCommitIsSolvent(sim: Simulator, tol: real, l: L.Ledger, b: P.Book, e: Execution, intent: Intent)
    requires Solvent(b) && sim.feeBps <= 10000.0
    requires intent.side == Buy ==> intent.notional + FeeOn(intent.notional, sim.feeBps) <= b.cash
    requires ExistingOrder(l, intent.decisionId).None? && Prepare(sim, intent, e.mid, l, b, tol).Go?
    ensures Solvent(Apply(sim, intent, e.mid, l, b, tol, e.at).1)
  {
    var f := Prepare(sim, intent, e.mid, l, b, tol).fill;
    CommittedFill(sim, intent, e.mid, l, b, tol);
    FreshWithinNotional(sim, intent, e.mid, l, b, tol);
    FeeFormula(f, sim.feeBps);
    UpperIdempotent(intent.asset);
    FeeGrows(f.Notional(), intent.notional, sim.feeBps);
    CashAfter(b, f, e.at, sim.feeBps);
  }

  lemma FreshFillIsSolvent(sim: Simulator, c: Settings, tol: real, l: L.Ledger, b: P.Book, y: Cycle, s: P.Snapshot)
    requires Affordable(c, QueryOf(y, s), sim.feeBps) && sim.feeBps <= 10000.0 && Solvent(b) && s.cash == b.cash
    requires ExistingOrder(l, y.proposal.decisionId).None?
    ensures Solvent(FillStep(sim, tol, IntentFor(c, QueryOf(y, s), y.reduceOnly), y.execution, l, b).1)
  {
    var intent, e := IntentFor(c, QueryOf(y, s), y.reduceOnly), y.execution;
    IntentIsApproval(c, y, s);
    if intent.Some? && !e.gates.Withhold() && Prepare(sim, intent.value, e.mid, l, b, tol).Go? {
      FreshCommitIsSolvent(sim, tol, l, b, e, intent.value);
    }
  }

  /** A cycle whose question is answered with something affordable keeps a solvent book solvent. */
  lemma AffordableCycleIsSolvent(sim: Simulator, c: Settings, tol: real, l: L.Ledger, b: P.Book, y: Cycle)
    requires sim.feeBps <= 10000.0 && Solvent(b) && ExistingOrder(l, y.proposal.decisionId).None?
    requires var s := P.TakeSnapshot(b, y.snapshotAt).1; s.Some? ==> Affordable(c, QueryOf(y, s.value), sim.feeBps)
    ensures Solvent(CycleStep(sim, c, tol, l, b, y).1)
  {
    SnapshotCash(b, y.snapshotAt);
    var (b1, s) := P.TakeSnapshot(b, y.snapshotAt);
    if s.Some? {
      FreshFillIsSolvent(sim, c, tol, l, b1, y, s.value);
    }
  }

  lemma CycleIsSolvent(sim: Simulator, c: Settings, tol: real, l: L.Ledger, b: P.Book, y: Cycle)
    requires FeesFit(c, sim.feeBps) && Solvent(b) && ExistingOrder(l, y.proposal.decisionId).None?
    ensures Solvent(CycleStep(sim, c, tol, l, b, y).1)
  {
    SnapshotCash(b, y.snapshotAt);
    var s := P.TakeSnapshot(b, y.snapshotAt).1;
    if s.Some? {
      ApprovedBuyIsAffordable(c, QueryOf(y, s.value), sim.feeBps);
    }
    AffordableCycleIsSolvent(sim, c, tol, l, b, y);
  }

  // ----- runs -----

  datatype Event = Traded(cycle: Cycle) | Marked(asset: string, price: real)

  ghost function Step(sim: Simulator, c: Settings, tol: real, s: (L.Ledger, P.Book), e: Event): (L.Ledger, P.Book) {
    match e
    case Traded(y) => CycleStep(sim, c, tol, s.0, s.1, y)
    case Marked(asset, price) => (s.0, P.Mark(s.1, asset, price).0)
  }

  ghost function Run(sim: Simulator, c: Settings, tol: real, s: (L.Ledger, P.Book), es: seq<Event>):
    (L.Ledger, P.Book)
  {
    if es == [] then s else Step(sim, c, tol, Run(sim, c, tol, s, es[..|es| - 1]), es[|es| - 1])
  }

  /** Every cycle of the run has a decision id no order carries yet and no other cycle uses. */
  ghost predicate FreshDecisions(l: L.Ledger, es: seq<Event>) {
    && (forall i :: 0 <= i < |es| && es[i].Traded? ==> ExistingOrder(l, es[i].cycle.proposal.decisionId).None?)
    && (forall i, j :: 0 <= i < j < |es| && es[i].Traded? && es[j].Traded? ==>
          es[i].cycle.proposal.decisionId != es[j].cycle.proposal.decisionId)
  }

  lemma FillKeepsOthersUnlisted(l: L.Ledger, f: L.Fill, tol: real, decision: string)
    requires L.Valid(l) && L.RecordFill(l, f, tol).Ok? && L.OrdersForDecision(l.orders, decision) == []
    ensures L.OrdersForDecision(L.RecordFill(l, f, tol).value.0.orders, decision) == []
  {
    if L.RecordFill(l, f, tol).value.1 {
      var o := L.FindOrder(l, f.orderId).value;
      L.FoundIsStored(l, f.orderId);
      R.StoredIsListed(l.orders, o.orderId);
      R.PutKeepsOthersUnlisted(l.orders, o.orderId, L.WithFill(o, f, tol), decision);
    }
  }

  lemma FillStepKeepsOthersUnlisted(sim: Simulator, tol: real, intent: Option<Intent>, e: Execution, l: L.Ledger,
                                    b: P.Book, decision: string)
    requires L.Valid(l) && ExistingOrder(l, decision).None? && (intent.Some? ==> decision != intent.value.decisionId)
    ensures var l' := FillStep(sim, tol, intent, e, l, b).0; L.Valid(l') && ExistingOrder(l', decision).None?
  {
    if intent.Some? && !e.gates.Withhold() {
      AttemptKeepsOthersUnlisted(sim, intent.value, e.mid, l, b, tol, decision);
    }
  }

  /** A cycle lists orders for no decision but its own. */
  lemma CycleKeepsOthersUnlisted(sim: Simulator, c: Settings, tol: real, l: L.Ledger, b: P.Book, y: Cycle,
                                 decision: string)
    requires L.Valid(l) && decision != y.proposal.decisionId && ExistingOrder(l, decision).None?
    ensures L.Valid(CycleStep(sim, c, tol, l, b, y).0)
    ensures ExistingOrder(CycleStep(sim, c, tol, l, b, y).0, decision).None?
  {
    var (b1, s) := P.TakeSnapshot(b, y.snapshotAt);
    if s.Some? {
      IntentIsApproval(c, y, s.value);
      FillStepKeepsOthersUnlisted(sim, tol, IntentFor(c, QueryOf(y, s.value), y.reduceOnly), y.execution, l, b1,
                                  decision);
    }
  }

  lemma AttemptKeepsOthersUnlisted(sim: Simulator, intent: Intent, mid: real, l: L.Ledger, b: P.Book, tol: real,
                                   decision: string)
    requires L.Valid(l) && decision != intent.decisionId && ExistingOrder(l, decision).None?
    ensures var l' := Prepare(sim, intent, mid, l, b, tol).ledger; L.Valid(l') && ExistingOrder(l', decision).None?
  {
    var p := Prepare(sim, intent, mid, l, b, tol);
    var l1 := R.PrepareFactors(sim, intent, mid, l, b, tol);
    if p.Go? {
      R.GoSpends(sim, intent, mid, l, b, tol);
      FillKeepsOthersUnlisted(l1, p.fill, tol, decision);
    }
  }

  lemma StepKeepsOthersUnlisted(sim: Simulator, c: Settings, tol: real, s: (L.Ledger, P.Book), e: Event,
                                decision: string)
    requires L.Valid(s.0) && ExistingOrder(s.0, decision).None?
    requires e.Traded? ==> decision != e.cycle.proposal.decisionId
    ensures L.Valid(Step(sim, c, tol, s, e).0) && ExistingOrder(Step(sim, c, tol, s, e).0, decision).None?
  {
    if e.Traded? {
      CycleKeepsOthersUnlisted(sim, c, tol, s.0, s.1, e.cycle, decision);
    }
  }

  lemma {:induction false} RunKeepsOthersUnlisted(sim: Simulator, c: Settings, tol: real, s: (L.Ledger, P.Book),
                                                  es: seq<Event>, decision: string)
    requires L.Valid(s.0) && ExistingOrder(s.0, decision).None?
    requires forall i :: 0 <= i < |es| && es[i].Traded? ==> decision != es[i].cycle.proposal.decisionId
    ensures L.Valid(Run(sim, c, tol, s, es).0) && ExistingOrder(Run(sim, c, tol, s, es).0, decision).None?
  {
    if es != [] {
      RunKeepsOthersUnlisted(sim, c, tol, s, es[..|es| - 1], decision);
      StepKeepsOthersUnlisted(sim, c, tol, Run(sim, c, tol, s, es[..|es| - 1]), es[|es| - 1], decision);
    }
  }

  /** Solvency: when fees fit, no run of cycles with fresh decision ids and arbitrary marks ever takes
      a solvent book's cash below zero, though every fee is charged on top of the approved notional. */
  lemma {:induction false} CashNeverNegative(sim: Simulator, c: Settings, tol: real, l: L.Ledger, b: P.Book,
                                             es: seq<Event>)
    requires FeesFit(c, sim.feeBps) && L.Valid(l) && Solvent(b) && FreshDecisions(l, es)
    ensures Solvent(Run(sim, c, tol, (l, b), es).1)
  {
    if es != [] {
      var front, e := es[..|es| - 1], es[|es| - 1];
      var s := Run(sim, c, tol, (l, b), front);
      CashNeverNegative(sim, c, tol, l, b, front);
      if e.Traded? {
        RunKeepsOthersUnlisted(sim, c, tol, (l, b), front, e.cycle.proposal.decisionId);
        CycleIsSolvent(sim, c, tol, s.0, s.1, e.cycle);
      }
    }
  }
}
