/** Whole lots: when orders are planned in lots larger than the short-sale slack, no sell can fall
    into the band, and ledger and book agree over every run. */
module WholeLots {
  import opened Common
  import opened Dictionary
  import opened Planning
  import opened PaperFills
  import opened LotTrades
  import R = BookOfRecord
  import L = Ledgers
  import P = Portfolio

  ghost predicate Whole(step: Positive, quantity: real) {
    exists lots: nat :: IsLots(step, lots, quantity)
  }

  // ----- arithmetic of lots -----

  lemma NoLots(step: Positive)
    ensures Whole(step, 0.0)
  {
    assert IsLots(step, 0, 0.0);
  }

  lemma LotsAdd(step: Positive, a: real, b: real)
    requires Whole(step, a) && Whole(step, b)
    ensures Whole(step, a + b)
  {
    var m: nat :| IsLots(step, m, a);
    var n: nat :| IsLots(step, n, b);
    assert (m + n) as real * step == m as real * step + n as real * step;
    assert IsLots(step, m + n, a + b);
  }

  lemma LotsSubtract(step: Positive, a: real, b: real)
    requires Whole(step, a) && Whole(step, b) && b <= a
    ensures Whole(step, a - b)
  {
    var m: nat :| IsLots(step, m, a);
    var n: nat :| IsLots(step, n, b);
    FewerLots(step, n, m, 0.0);
    assert (m - n) as real * step == m as real * step - n as real * step;
    assert IsLots(step, m - n, a - b);
  }

  /** Within less than one lot, no more lots at all. */
  lemma FewerLots(step: Positive, m: nat, n: nat, slack: real)
    requires m as real * step <= n as real * step + slack && slack < step
    ensures m <= n
  {
    assert (n as real + 1.0) * step == n as real * step + step;
    if m > n {
      ProductGrows(step, n as real + 1.0, m as real);
    }
  }

  lemma LotsWithin(step: Positive, a: real, b: real, slack: real)
    requires Whole(step, a) && Whole(step, b) && a <= b + slack && slack < step
    ensures a <= b
  {
    var m: nat :| IsLots(step, m, a);
    var n: nat :| IsLots(step, n, b);
    FewerLots(step, m, n, slack);
    ProductGrows(step, m as real, n as real);
  }

  // ----- what an attempt keeps -----

  lemma PlanIsWhole(planner: Planner, intent: Intent, price: real, reference: real, cap: Option<real>, id: string)
    requires PlanOrder(planner, intent, price, reference, cap, id).Planned?
    ensures Whole(planner.lotStep, PlanOrder(planner, intent, price, reference, cap, id).plan.quantity)
  {
    QuotientPositive(intent.notional, price);
    LargestLots(planner.lotStep, intent.notional / price);
    if cap.Some? {
      LargestLots(planner.lotStep, cap.value);
    }
  }

  ghost predicate OrdersWhole(step: Positive, l: L.Ledger) {
    forall i :: 0 <= i < |l.orders| ==> Whole(step, l.orders[i].1.requestedQuantity)
  }

  ghost predicate BookWhole(step: Positive, b: P.Book) {
    forall asset :: Whole(step, P.PositionOf(b, asset).quantity)
  }

  lemma StoreStaysWhole(step: Positive, l: L.Ledger, key: string, o: L.Order)
    requires OrdersWhole(step, l) && Whole(step, o.requestedQuantity)
    ensures OrdersWhole(step, l.(orders := Put(l.orders, key, o)))
  {
    PutAt(l.orders, key, o);
  }

  lemma FoundIsWhole(step: Positive, l: L.Ledger, id: string)
    requires L.Valid(l) && OrdersWhole(step, l) && L.FindOrder(l, id).Some?
    ensures Whole(step, L.FindOrder(l, id).value.requestedQuantity)
  {
    var o := L.FindOrder(l, id).value;
    L.FoundIsStored(l, id);
    var i := GetIndex(l.orders, o.orderId);
  }

  lemma RecordStaysWhole(step: Positive, l: L.Ledger, f: L.Fill, tol: real)
    requires L.Valid(l) && OrdersWhole(step, l) && L.RecordFill(l, f, tol).Ok?
    ensures OrdersWhole(step, L.RecordFill(l, f, tol).value.0)
  {
    if L.RecordFill(l, f, tol).value.1 {
      var o := L.FindOrder(l, f.orderId).value;
      FoundIsWhole(step, l, f.orderId);
      StoreStaysWhole(step, l, o.orderId, L.WithFill(o, f, tol));
    }
  }

  lemma CommitStaysWhole(step: Positive, sim: Simulator, intent: Intent, l: L.Ledger, b: P.Book, tol: real,
                         order: L.Order, id: string, quantity: Positive, price: Positive)
    requires L.Valid(l) && OrdersWhole(step, l)
    ensures OrdersWhole(step, Commit(sim, intent, l, b, tol, order, id, quantity, price).ledger)
  {
    var p := Commit(sim, intent, l, b, tol, order, id, quantity, price);
    if p.Go? {
      CommitGo(sim, intent, l, b, tol, order, id, quantity, price);
      RecordStaysWhole(step, l, p.fill, tol);
    } else {
      R.CommitStop(sim, intent, l, b, tol, order, id, quantity, price);
    }
  }

  lemma ExistingIsWhole(step: Positive, l: L.Ledger, decision: string)
    requires OrdersWhole(step, l) && ExistingOrder(l, decision).Some?
    ensures Whole(step, ExistingOrder(l, decision).value.requestedQuantity)
  {
    var i := R.ListedIsStored(l.orders, decision);
  }

  lemma CommitPlanStaysWhole(step: Positive, sim: Simulator, intent: Intent, l: L.Ledger, b: P.Book, tol: real,
                             existing: Option<L.Order>, plan: Plan)
    requires L.Valid(l) && OrdersWhole(step, l) && Whole(step, plan.quantity)
    requires existing.Some? ==> Whole(step, existing.value.requestedQuantity)
    ensures var p := CommitPlan(sim, intent, l, b, tol, existing, plan);
            OrdersWhole(step, p.ledger) && (p.Go? ==> Whole(step, p.fill.quantity))
  {
    if existing.Some? {
      var o := existing.value;
      var quantity: Positive := if ReduceOnlyCap(b, intent).Some? && plan.quantity < o.requestedQuantity
                                then plan.quantity else o.requestedQuantity;
      CommitStaysWhole(step, sim, intent, l, b, tol, o, ClientIdOf(o), quantity, plan.executionPrice);
    } else if L.RegisterOrder(l, NewOrder(plan)).Ok? {
      R.RegisterEvolves(l, NewOrder(plan));
      StoreStaysWhole(step, l, plan.clientOrderId, NewOrder(plan));
      CommitStaysWhole(step, sim, intent, L.RegisterOrder(l, NewOrder(plan)).value, b, tol, NewOrder(plan),
                       plan.clientOrderId, plan.quantity, plan.executionPrice);
    }
  }

  lemma PrepareStaysWhole(sim: Simulator, intent: Intent, mid: real, l: L.Ledger, b: P.Book, tol: real)
    requires L.Valid(l) && OrdersWhole(sim.planner.lotStep, l)
    ensures var p := Prepare(sim, intent, mid, l, b, tol);
            && OrdersWhole(sim.planner.lotStep, p.ledger)
            && (p.Go? ==> Whole(sim.planner.lotStep, p.fill.quantity))
  {
    var step, existing := sim.planner.lotStep, ExistingOrder(l, intent.decisionId);
    if mid > 0.0 && PlanFor(sim, intent, mid, b).Planned? {
      PlanIsWhole(sim.planner, intent, AdverseFillPrice(intent.side, mid, sim.slippageBps), mid,
                  ReduceOnlyCap(b, intent), sim.clientOrderId(intent.decisionId));
      if existing.Some? {
        ExistingIsWhole(step, l, intent.decisionId);
      }
      CommitPlanStaysWhole(step, sim, intent, l, b, tol, existing, PlanFor(sim, intent, mid, b).plan);
    }
  }

  /** With whole lots on both sides and a slack below one lot, no sell is in the band. */
  lemma BandIsEmpty(sim: Simulator, intent: Intent, mid: real, l: L.Ledger, b: P.Book, tol: real)
    requires L.Valid(l) && OrdersWhole(sim.planner.lotStep, l) && BookWhole(sim.planner.lotStep, b)
    requires sim.tolerance < sim.planner.lotStep
    ensures !R.InBand(sim, intent, mid, l, b, tol)
  {
    if R.InBand(sim, intent, mid, l, b, tol) {
      PrepareStaysWhole(sim, intent, mid, l, b, tol);
      R.BandBounds(sim, intent, mid, l, b, tol);
      LotsWithin(sim.planner.lotStep, Prepare(sim, intent, mid, l, b, tol).fill.quantity,
                 P.PositionOf(b, Upper(intent.asset)).quantity, sim.tolerance);
    }
  }

  lemma FillStaysWhole(step: Positive, b: P.Book, f: L.Fill, now: real)
    requires BookWhole(step, b) && Whole(step, f.quantity) && Upper(f.asset) == f.asset
    ensures BookWhole(step, P.ApplyFill(b, f.asset, f.side, f.quantity, f.priceUsd, f.feeUsd, now, None).0)
  {
    var (b', e) := P.ApplyFill(b, f.asset, f.side, f.quantity, f.priceUsd, f.feeUsd, now, None);
    forall asset
      ensures Whole(step, P.PositionOf(b', asset).quantity)
    {
      var held := P.PositionOf(b, asset).quantity;
      assert Whole(step, held);
      P.FillEffect(b, f.asset, f.side, f.quantity, f.priceUsd, f.feeUsd, now, None, asset);
      if f.side == Buy {
        LotsAdd(step, held, f.quantity);
      } else if f.quantity <= held {
        LotsSubtract(step, held, f.quantity);
      }
    }
  }

  /** Ledger, book and log of a run that has only ever dealt in whole lots. */
  ghost predicate Tidy(sim: Simulator, s: R.System) {
    && OrdersWhole(sim.planner.lotStep, s.ledger) && BookWhole(sim.planner.lotStep, s.book)
    && R.AllTaken(s.log)
  }

  lemma AttemptStaysTidy(sim: Simulator, tol: real, s: R.System, intent: Intent, mid: real, now: real)
    requires L.Valid(s.ledger) && Tidy(sim, s) && sim.tolerance < sim.planner.lotStep
    ensures Tidy(sim, R.Step(sim, tol, s, R.Attempt(intent, mid, now)))
  {
    var p := Prepare(sim, intent, mid, s.ledger, s.book, tol);
    PrepareStaysWhole(sim, intent, mid, s.ledger, s.book, tol);
    BandIsEmpty(sim, intent, mid, s.ledger, s.book, tol);
    if p.Go? {
      CommittedFill(sim, intent, mid, s.ledger, s.book, tol);
      UpperIdempotent(intent.asset);
      FillStaysWhole(sim.planner.lotStep, s.book, p.fill, now);
    }
  }

  lemma MarkStaysTidy(sim: Simulator, s: R.System, asset: string, price: real)
    requires Tidy(sim, s)
    ensures Tidy(sim, s.(book := P.Mark(s.book, asset, price).0))
  {
    var b' := P.Mark(s.book, asset, price).0;
    forall q
      ensures Whole(sim.planner.lotStep, P.PositionOf(b', q).quantity)
    {
      assert Whole(sim.planner.lotStep, P.PositionOf(s.book, q).quantity);
      if price > 0.0 {
        P.MarkedKeeps(s.book, Upper(asset), price, q);
      }
    }
  }

  lemma ObserveStaysTidy(sim: Simulator, s: R.System, now: real)
    requires Tidy(sim, s)
    ensures Tidy(sim, s.(book := P.TakeSnapshot(s.book, now).0))
  {
    var b' := P.TakeSnapshot(s.book, now).0;
    assert forall q :: P.PositionOf(b', q) == P.PositionOf(s.book, q);
  }

  lemma StepStaysTidy(sim: Simulator, tol: real, s: R.System, e: R.Event)
    requires R.Sound(s) && Tidy(sim, s) && sim.tolerance < sim.planner.lotStep
    requires e.Register? ==> Whole(sim.planner.lotStep, e.order.requestedQuantity)
    ensures Tidy(sim, R.Step(sim, tol, s, e))
  {
    match e {
      case Attempt(intent, mid, now) => AttemptStaysTidy(sim, tol, s, intent, mid, now);
      case Register(o) => StoreStaysWhole(sim.planner.lotStep, s.ledger, o.orderId, o);
      case UpdateState(id, st) =>
        if L.FindOrder(s.ledger, id).Some? {
          var o := L.FindOrder(s.ledger, id).value;
          FoundIsWhole(sim.planner.lotStep, s.ledger, id);
          StoreStaysWhole(sim.planner.lotStep, s.ledger, o.orderId, o.(state := st));
        }
      case Mark(asset, price) => MarkStaysTidy(sim, s, asset, price);
      case Observe(now) => ObserveStaysTidy(sim, s, now);
      case RestartLedger(saved) =>
      case RestartBook => P.RestartIsIdentity(s.book);
    }
  }

  lemma StartIsTidy(sim: Simulator, startingNav: Positive)
    ensures Tidy(sim, R.Start(startingNav))
  {
    NoLots(sim.planner.lotStep);
  }

  /** Every order registered in the run is fresh and of whole lots. */
  ghost predicate RegistersWhole(sim: Simulator, es: seq<R.Event>) {
    forall i :: 0 <= i < |es| && es[i].Register? ==>
      L.Fresh(es[i].order) && Whole(sim.planner.lotStep, es[i].order.requestedQuantity)
  }

  /** Over every run in which registered orders are whole lots, and with the slack below one lot, the
      ledger and the book agree on every quantity, on cash and on fees. */
  lemma {:induction false} WholeLotsAgree(sim: Simulator, tol: real, startingNav: Positive, es: seq<R.Event>)
    requires sim.tolerance < sim.planner.lotStep && RegistersWhole(sim, es)
    ensures var s := R.Run(sim, tol, R.Start(startingNav), es); Tidy(sim, s) && R.Agree(s.ledger, s.book)
  {
    R.BookOfRecordOverEveryRun(sim, tol, startingNav, es);
    if es == [] {
      StartIsTidy(sim, startingNav);
    } else {
      var front := es[..|es| - 1];
      WholeLotsAgree(sim, tol, startingNav, front);
      R.BookOfRecordOverEveryRun(sim, tol, startingNav, front);
      StepStaysTidy(sim, tol, R.Run(sim, tol, R.Start(startingNav), front), es[|es| - 1]);
    }
  }

  // ----- and only then -----

  ghost function SellOne(sim: Simulator, decision: string, asset: string): Intent {
    Intent(decision, asset, Sell, sim.planner.minNotional, false)
  }

  lemma StartAgrees(startingNav: Positive)
    ensures R.Agree(R.Start(startingNav).ledger, R.Start(startingNav).book)
  {
    assert forall asset :: P.PositionOf(R.Start(startingNav).book, asset).quantity == 0.0;
  }

  /** With a slack of a lot or more, a lot is sold out of nothing, and the book refuses what the ledger took. */
  lemma SoldOutOfNothing(sim: Simulator, decision: string, asset: string, startingNav: Positive)
    requires Trades(sim) && sim.tolerance >= sim.planner.lotStep
    ensures var (intent, s) := (SellOne(sim, decision, asset), R.Start(startingNav));
            R.InBand(sim, intent, LotMid(sim, Sell, intent.notional), s.ledger, s.book, 0.0)
  {
    OneLotCommits(sim, SellOne(sim, decision, asset), L.EMPTY, P.Opening(startingNav), 0.0);
  }

  lemma OneAttemptParts(sim: Simulator, decision: string, asset: string, startingNav: Positive)
    requires Trades(sim) && sim.tolerance >= sim.planner.lotStep
    ensures var e := R.Attempt(SellOne(sim, decision, asset), LotMid(sim, Sell, sim.planner.minNotional), 0.0);
            var s := R.Run(sim, 0.0, R.Start(startingNav), [e]);
            !R.Agree(s.ledger, s.book)
  {
    var (intent, s) := (SellOne(sim, decision, asset), R.Start(startingNav));
    var e := R.Attempt(intent, LotMid(sim, Sell, sim.planner.minNotional), 0.0);
    SoldOutOfNothing(sim, decision, asset, startingNav);
    StartAgrees(startingNav);
    R.AgreementKeptExactlyOutsideTheBand(sim, intent, LotMid(sim, Sell, intent.notional), s.ledger, s.book, 0.0, 0.0);
    assert [e][..0] == [] && R.Run(sim, 0.0, s, [e][..0]) == s;
  }

  /** For a simulator that trades, ledger and book agree over every run of whole-lot orders from a new book if
      and only if the slack is below one lot. */
  lemma WholeLotsAgreeExactlyWhen(sim: Simulator)
    requires Trades(sim)
    ensures (forall tol: real, startingNav: Positive, es: seq<R.Event> :: RegistersWhole(sim, es) ==>
               R.Agree(R.Run(sim, tol, R.Start(startingNav), es).ledger,
                       R.Run(sim, tol, R.Start(startingNav), es).book))
            <==> sim.tolerance < sim.planner.lotStep
  {
    if sim.tolerance < sim.planner.lotStep {
      forall tol: real, startingNav: Positive, es: seq<R.Event> | RegistersWhole(sim, es)
        ensures R.Agree(R.Run(sim, tol, R.Start(startingNav), es).ledger,
                        R.Run(sim, tol, R.Start(startingNav), es).book)
      {
        WholeLotsAgree(sim, tol, startingNav, es);
      }
    } else {
      var start: Positive := 1.0;
      var es := [R.Attempt(SellOne(sim, "", ""), LotMid(sim, Sell, sim.planner.minNotional), 0.0)];
      OneAttemptParts(sim, "", "", start);
      assert RegistersWhole(sim, es);
    }
  }
}
