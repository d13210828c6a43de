/** The book refuses to be saved once its day-start value is not positive. A solvent service never gets
    there; a book that is sold more than it can pay for does. */
module Checkpoints {
  import opened Common
  import opened Dictionary
  import opened Planning
  import opened PaperFills
  import opened Risk
  import opened Pipeline
  import opened Solvency
  import opened Service
  import H = Holdings
  import O = Overdraft
  import L = Ledgers
  import P = Portfolio

  // ----- a solvent book is worth something -----

  /** Money or goods: cash above zero, or something held. */
  ghost predicate Worthy(b: P.Book) {
    b.cash > 0.0 || exists asset :: P.PositionOf(b, asset).quantity > 0.0
  }

  lemma WorthOf(marks: Dict<Positive>, key: string, p: P.Position)
    ensures P.Worth(marks)(key, p) >= 0.0
    ensures p.quantity > 0.0 && P.CostFits(p) ==> P.Worth(marks)(key, p) > 0.0
  {
    var price := P.MarkOr(marks, key, p);
    ProductGrows(p.quantity, 0.0, price);
    if p.quantity > 0.0 && price > 0.0 {
      ProductPositive(p.quantity, price);
    }
  }

  lemma {:induction false} WorthNonNegative(ps: Dict<P.Position>, marks: Dict<Positive>)
    ensures Sum(ps, P.Worth(marks)) >= 0.0
  {
    if ps != [] {
      WorthNonNegative(ps[1..], marks);
      WorthOf(marks, ps[0].0, ps[0].1);
    }
  }

  lemma {:induction false} HoldingHasWorth(ps: Dict<P.Position>, marks: Dict<Positive>, asset: string)
    requires forall i :: 0 <= i < |ps| ==> P.CostFits(ps[i].1)
    requires Get(ps, asset).Some? && Get(ps, asset).value.quantity > 0.0
    ensures Sum(ps, P.Worth(marks)) > 0.0
  {
    assert P.CostFits(ps[0].1);
    WorthOf(marks, ps[0].0, ps[0].1);
    if ps[0].0 == asset {
      WorthNonNegative(ps[1..], marks);
    } else {
      HoldingHasWorth(ps[1..], marks, asset);
    }
  }

  lemma NavIsPositive(b: P.Book)
    requires P.Valid(b) && Solvent(b) && Worthy(b)
    ensures P.Nav(b) > 0.0
  {
    WorthNonNegative(b.positions, b.marks);
    if b.cash <= 0.0 {
      var asset :| P.PositionOf(b, asset).quantity > 0.0;
      HoldingHasWorth(b.positions, b.marks, asset);
    }
  }

  // ----- every step keeps it so -----

  /** Worth something, and worth something when the day began. */
  ghost predicate Savable(b: P.Book) { Worthy(b) && b.dayStartNav > 0.0 }

  lemma MarkStaysSavable(b: P.Book, asset: string, price: real)
    requires Savable(b)
    ensures Savable(P.Mark(b, asset, price).0)
  {
    var b' := P.Mark(b, asset, price).0;
    if b.cash <= 0.0 {
      var held :| P.PositionOf(b, held).quantity > 0.0;
      MarkKeepsQuantity(b, asset, price, held);
      assert P.PositionOf(b', held).quantity > 0.0;
    }
  }

  lemma SnapshotStaysSavable(b: P.Book, at: real)
    requires P.Valid(b) && Solvent(b) && Savable(b)
    ensures Savable(P.TakeSnapshot(b, at).0)
  {
    var b' := P.TakeSnapshot(b, at).0;
    NavIsPositive(b);
    if b.cash <= 0.0 {
      var held :| P.PositionOf(b, held).quantity > 0.0;
      SnapshotKeepsHoldings(b, at, held);
      assert P.PositionOf(b', held).quantity > 0.0;
    }
  }

  lemma FeeBelow(notional: Positive, feeBps: NonNegative)
    requires feeBps < 10000.0
    ensures FeeOn(notional, feeBps) < notional
  {
    ProductPositive(notional, 10000.0 - feeBps);
    assert notional * (10000.0 - feeBps) == notional * 10000.0 - notional * feeBps;
  }

  lemma SaleLeavesCash(b: P.Book, b': P.Book, f: L.Fill, feeBps: NonNegative)
    requires P.AccountsMove(b, b', f.side, f.quantity, f.priceUsd, f.feeUsd, true) && f.side == Sell
    requires f.feeUsd == ModelledFee(f.quantity, f.priceUsd, feeBps) && feeBps < 10000.0 && Solvent(b)
    ensures b'.cash > 0.0
  {
    FeeFormula(f, feeBps);
    FeeBelow(f.Notional(), feeBps);
  }

  lemma FillStaysSavable(b: P.Book, f: L.Fill, feeBps: NonNegative, now: real)
    requires Solvent(b) && Savable(b) && feeBps < 10000.0 && Upper(f.asset) == f.asset
    requires f.feeUsd == ModelledFee(f.quantity, f.priceUsd, feeBps)
    ensures Savable(P.ApplyFill(b, f.asset, f.side, f.quantity, f.priceUsd, f.feeUsd, now, None).0)
  {
    var (b', e) := P.ApplyFill(b, f.asset, f.side, f.quantity, f.priceUsd, f.feeUsd, now, None);
    P.FillEffect(b, f.asset, f.side, f.quantity, f.priceUsd, f.feeUsd, now, None, f.asset);
    AnchorStays(b, f, now);
    if f.side == Buy {
      assert P.PositionOf(b', f.asset).quantity > 0.0;
    } else if e.None? {
      SaleLeavesCash(b, b', f, feeBps);
    } else if b.cash <= 0.0 {
      var held :| P.PositionOf(b, held).quantity > 0.0;
      P.FillEffect(b, f.asset, f.side, f.quantity, f.priceUsd, f.feeUsd, now, None, held);
      assert P.PositionOf(b', held).quantity > 0.0;
    }
  }

  lemma AnchorStays(b: P.Book, f: L.Fill, now: real)
    ensures P.ApplyFill(b, f.asset, f.side, f.quantity, f.priceUsd, f.feeUsd, now, None).0.dayStartNav == b.dayStartNav
  {
  }

  lemma AttemptStaysSavable(sim: Simulator, intent: Intent, mid: real, l: L.Ledger, b: P.Book, tol: real, now: real)
    requires Solvent(b) && Savable(b) && sim.feeBps < 10000.0
    ensures Savable(Apply(sim, intent, mid, l, b, tol, now).1)
  {
    var p := Prepare(sim, intent, mid, l, b, tol);
    if p.Go? {
      CommittedFill(sim, intent, mid, l, b, tol);
      UpperIdempotent(intent.asset);
      FillStaysSavable(b, p.fill, sim.feeBps, now);
    }
  }

  lemma TradeStaysSavable(sim: Simulator, g: Config, c: Settings, tol: real, l: L.Ledger, b: P.Book, v: Turn)
    requires P.Valid(b) && Solvent(b) && Savable(b) && sim.feeBps < 10000.0
    ensures Savable(TradeTurn(sim, g, c, tol, l, b, v).1)
  {
    SnapshotStaysSavable(b, v.snapshotAt);
    var (b1, snapshot) := P.TakeSnapshot(b, v.snapshotAt);
    if snapshot.Some? {
      var order := DecisionOn(g, c, v, snapshot.value).order;
      if order.Some? {
        SnapshotCash(b, v.snapshotAt);
        AttemptStaysSavable(sim, order.value, v.execution.mid, l, b1, tol, v.execution.at);
      }
      var b2 := FillStep(sim, tol, order, v.execution, l, b1).1;
      MarkStaysSavable(b2, BaseAsset(v.inputs.tick.symbol), v.inputs.tick.last);
    }
  }

  lemma ReportIsOfTheSame(b: P.Book, at: real)
    requires P.Valid(P.TakeSnapshot(b, at).0) && Solvent(P.TakeSnapshot(b, at).0)
    ensures P.Valid(b) && Solvent(b)
  {
  }

  /** The report anchors the day at what the turn left, which is worth something. */
  lemma TurnStaysSavable(sim: Simulator, g: Config, c: Settings, tol: real, l: L.Ledger, b: P.Book, v: Turn)
    requires P.Valid(b) && Solvent(b) && Savable(b) && sim.feeBps < 10000.0
    requires P.Valid(TakeTurn(sim, g, c, tol, l, b, v).1) && Solvent(TakeTurn(sim, g, c, tol, l, b, v).1)
    ensures Savable(TakeTurn(sim, g, c, tol, l, b, v).1)
  {
    TradeStaysSavable(sim, g, c, tol, l, b, v);
    if Reports(sim, g, c, tol, l, b, v) {
      var traded := TradeTurn(sim, g, c, tol, l, b, v).1;
      ReportIsOfTheSame(traded, v.reportAt);
      SnapshotStaysSavable(traded, v.reportAt);
    }
  }

  lemma StepStaysSavable(sim: Simulator, g: Config, c: Settings, tol: real, s: (L.Ledger, P.Book), e: Service.Event)
    requires P.Valid(s.1) && Solvent(s.1) && Savable(s.1) && sim.feeBps < 10000.0
    requires P.Valid(Service.Step(sim, g, c, tol, s, e).1) && Solvent(Service.Step(sim, g, c, tol, s, e).1)
    ensures Savable(Service.Step(sim, g, c, tol, s, e).1)
  {
    match e {
      case Traded(v) => TurnStaysSavable(sim, g, c, tol, s.0, s.1, v);
      case Marked(asset, price) => MarkStaysSavable(s.1, asset, price);
      case Observed(now) => SnapshotStaysSavable(s.1, now);
      case RestartLedger(saved) =>
      case RestartBook => P.RestartIsIdentity(s.1);
    }
  }

  /** Over every run of the service from a new book, when fees fit and are below 100%, the book is worth
      something and the checkpoint can be written, so every restart gives the same book back. */
  lemma {:induction false} CheckpointsCanBeWritten(sim: Simulator, g: Config, c: Settings, tol: real,
                                                   startingNav: Positive, es: seq<Service.Event>)
    requires FeesFit(c, sim.feeBps) && sim.feeBps < 10000.0 && FreshTurns(L.EMPTY, es)
    ensures var b := Service.Run(sim, g, c, tol, (L.EMPTY, P.Opening(startingNav)), es).1;
            && Savable(b) && P.Nav(b) > 0.0
            && P.SaveBook(b).Some? && P.LoadBook(P.SaveBook(b).value) == b
  {
    var start := (L.EMPTY, P.Opening(startingNav));
    var b := Service.Run(sim, g, c, tol, start, es).1;
    ServiceNeverOverdraws(sim, g, c, tol, L.EMPTY, P.Opening(startingNav), es);
    ServiceKeepsTheBooks(sim, g, c, tol, startingNav, es);
    if es != [] {
      var front := es[..|es| - 1];
      CheckpointsCanBeWritten(sim, g, c, tol, startingNav, front);
      ServiceNeverOverdraws(sim, g, c, tol, L.EMPTY, P.Opening(startingNav), front);
      ServiceKeepsTheBooks(sim, g, c, tol, startingNav, front);
      StepStaysSavable(sim, g, c, tol, Service.Run(sim, g, c, tol, start, front), es[|es| - 1]);
    }
    NavIsPositive(b);
    P.RestartIsIdentity(b);
  }

  // ----- a book that cannot be saved -----

  /** A buy beyond the cash, a fall of the price, and the next day's first look. */
  ghost function SunkBook(asset: string): seq<H.Event> {
    [H.Observed(0.0), H.Filled(asset, Buy, 2.0, 1.0, 0.0, 0.0, None), H.Marked(asset, 0.25), H.Observed(86400.0)]
  }

  /** Looked at on the next day, a book worth nothing or less anchors the day there. */
  lemma NextDayAnchors(b: P.Book)
    requires b.dayStartDate == Some(P.DayOf(0.0)) && P.Nav(b) <= 0.0
    ensures P.SaveBook(H.Step(b, H.Observed(86400.0))).None?
  {
    assert P.DayOf(0.0) == 0 && P.DayOf(86400.0) == 1;
  }

  lemma RunTwo(b: P.Book, e1: H.Event, e2: H.Event)
    ensures H.Run(b, [e1, e2]) == H.Step(H.Step(b, e1), e2)
  {
    assert [e1, e2][..1] == [e1] && [e1][..0] == [];
    assert H.Run(b, []) == b && H.Run(b, [e1]) == H.Step(b, e1);
  }

  lemma RunFour(b: P.Book, e1: H.Event, e2: H.Event, e3: H.Event, e4: H.Event)
    ensures H.Run(b, [e1, e2, e3, e4]) == H.Step(H.Step(H.Run(b, [e1, e2]), e3), e4)
  {
    assert [e1, e2, e3, e4][..3] == [e1, e2, e3] && [e1, e2, e3][..2] == [e1, e2];
    assert H.Run(b, [e1, e2, e3]) == H.Step(H.Run(b, [e1, e2]), e3);
  }

  lemma SunkHolding(asset: string)
    requires Upper(asset) == asset
    ensures O.OneHolding(H.Step(H.Step(P.Opening(1.0), SunkBook(asset)[0]), SunkBook(asset)[1]), 1.0, asset, 2.0, 1.0,
                         -1.0)
  {
    var s := O.OpeningSnapshot(1.0);
    O.FirstBuyHolds(1.0, asset, 2.0, 1.0, 0.0);
  }

  lemma SunkNav(b: P.Book, asset: string)
    requires Upper(asset) == asset && O.OneHolding(b, 1.0, asset, 2.0, 1.0, -1.0)
    ensures P.SaveBook(H.Step(H.Step(b, H.Marked(asset, 0.25)), H.Observed(86400.0))).None?
  {
    O.RemarkHolds(b, 1.0, asset, 2.0, 1.0, 0.25, -1.0);
    O.HoldingNav(H.Step(b, H.Marked(asset, 0.25)), asset, 2.0, 0.25);
    NextDayAnchors(H.Step(b, H.Marked(asset, 0.25)));
  }

  /** The book itself takes such fills: this run leaves one whose checkpoint cannot be written. */
  lemma SunkBookCannotBeSaved(asset: string)
    requires Upper(asset) == asset
    ensures P.SaveBook(H.Run(P.Opening(1.0), SunkBook(asset))).None?
  {
    var es := SunkBook(asset);
    RunTwo(P.Opening(1.0), es[0], es[1]);
    RunFour(P.Opening(1.0), es[0], es[1], es[2], es[3]);
    SunkHolding(asset);
    SunkNav(H.Run(P.Opening(1.0), [es[0], es[1]]), asset);
  }
}
