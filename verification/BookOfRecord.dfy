/** Ledger and book over whole runs: what they agree on, and exactly when they stop agreeing. */
module BookOfRecord {
  import opened Common
  import opened Dictionary
  import opened Planning
  import opened PaperFills
  import L = Ledgers
  import P = Portfolio

  // ----- totals the ledger implies -----

  ghost function SignedQuantity(asset: string): (string, L.Order) -> real {
    (key: string, o: L.Order) =>
      if Upper(o.asset) != asset then 0.0
      else if o.side == Buy then o.filledQuantity as real else -(o.filledQuantity as real)
  }

  ghost const CASH_FLOW := (key: string, o: L.Order) =>
    (if o.side == Buy then -o.Notional() else o.Notional()) - o.feesPaid

  ghost const ORDER_FEES := (key: string, o: L.Order) => o.feesPaid as real

  ghost predicate SameTotals(l: L.Ledger, l': L.Ledger) {
    && (forall asset :: Sum(l'.orders, SignedQuantity(asset)) == Sum(l.orders, SignedQuantity(asset)))
    && Sum(l'.orders, CASH_FLOW) == Sum(l.orders, CASH_FLOW)
    && Sum(l'.orders, ORDER_FEES) == Sum(l.orders, ORDER_FEES)
  }

  // ----- the log of ledger commits -----

  /** One committed paper fill; `taken` says whether the book took it too. */
  datatype Entry = Entry(decision: string, fill: L.Fill, taken: bool)

  ghost function Missing(log: seq<Entry>, g: L.Fill -> real): real {
    if log == [] then 0.0
    else
      var last := log[|log| - 1];
      Missing(log[..|log| - 1], g) + (if last.taken then 0.0 else g(last.fill))
  }

  ghost function QuantityOf(asset: string): L.Fill -> real {
    (f: L.Fill) => if Upper(f.asset) == asset then f.quantity as real else 0.0
  }

  ghost const PROCEEDS := (f: L.Fill) => f.Notional() - f.feeUsd
  ghost const FILL_FEE := (f: L.Fill) => f.feeUsd as real

  lemma MissingAppend(log: seq<Entry>, e: Entry, g: L.Fill -> real)
    ensures Missing(log + [e], g) == Missing(log, g) + (if e.taken then 0.0 else g(e.fill))
  {
    assert (log + [e])[..|log|] == log;
  }

  /** Book and ledger tell the same story, up to the sells the ledger committed and the book refused. */
  ghost predicate Reconciles(l: L.Ledger, b: P.Book, log: seq<Entry>) {
    && (forall asset ::
          P.PositionOf(b, asset).quantity == Sum(l.orders, SignedQuantity(asset)) + Missing(log, QuantityOf(asset)))
    && b.cash + Missing(log, PROCEEDS) == b.startingNav + Sum(l.orders, CASH_FLOW)
    && Sum(b.positions, P.FEES) + Missing(log, FILL_FEE) == Sum(l.orders, ORDER_FEES)
  }

  /** Per asset the book holds what the ledger bought minus sold; cash is the start minus buys plus
      sells minus fees; both have paid the same fees. */
  ghost predicate Agree(l: L.Ledger, b: P.Book) {
    && (forall asset :: P.PositionOf(b, asset).quantity == Sum(l.orders, SignedQuantity(asset)))
    && b.cash == b.startingNav + Sum(l.orders, CASH_FLOW)
    && Sum(b.positions, P.FEES) == Sum(l.orders, ORDER_FEES)
  }

  ghost predicate AllTaken(log: seq<Entry>) {
    forall i :: 0 <= i < |log| ==> log[i].taken
  }

  lemma {:induction false} NothingMissing(log: seq<Entry>, g: L.Fill -> real)
    requires AllTaken(log)
    ensures Missing(log, g) == 0.0
  {
    if log != [] {
      NothingMissing(log[..|log| - 1], g);
    }
  }

  lemma {:induction false} SomethingMissing(log: seq<Entry>, asset: string)
    ensures Missing(log, QuantityOf(asset)) >= 0.0
    ensures (exists i :: 0 <= i < |log| && !log[i].taken && Upper(log[i].fill.asset) == asset) ==>
              Missing(log, QuantityOf(asset)) > 0.0
  {
    if log != [] {
      SomethingMissing(log[..|log| - 1], asset);
    }
  }

  /** The two agree exactly when the book refused nothing the ledger committed. */
  lemma AgreeIffAllTaken(l: L.Ledger, b: P.Book, log: seq<Entry>)
    requires Reconciles(l, b, log)
    ensures Agree(l, b) <==> AllTaken(log)
  {
    if AllTaken(log) {
      NothingMissing(log, PROCEEDS);
      NothingMissing(log, FILL_FEE);
      forall asset
        ensures P.PositionOf(b, asset).quantity == Sum(l.orders, SignedQuantity(asset))
      {
        NothingMissing(log, QuantityOf(asset));
      }
    } else {
      var i :| 0 <= i < |log| && !log[i].taken;
      var asset := Upper(log[i].fill.asset);
      SomethingMissing(log, asset);
      assert P.PositionOf(b, asset).quantity != Sum(l.orders, SignedQuantity(asset));
    }
  }

  // ----- what ledger calls do to the totals -----

  lemma StoredOrderTotals(l: L.Ledger, o: L.Order, o': L.Order, g: (string, L.Order) -> real)
    requires Get(l.orders, o.orderId) == Some(o)
    ensures Sum(Put(l.orders, o.orderId, o'), g) == Sum(l.orders, g) + g(o.orderId, o') - g(o.orderId, o)
  {
    SumPut(l.orders, o.orderId, o', g);
  }

  lemma RegisterTotals(l: L.Ledger, o: L.Order)
    requires L.Fresh(o) && L.RegisterOrder(l, o).Ok?
    ensures SameTotals(l, L.RegisterOrder(l, o).value)
  {
    SumPut(l.orders, o.orderId, o, CASH_FLOW);
    SumPut(l.orders, o.orderId, o, ORDER_FEES);
    forall asset
      ensures Sum(Put(l.orders, o.orderId, o), SignedQuantity(asset)) == Sum(l.orders, SignedQuantity(asset))
    {
      SumPut(l.orders, o.orderId, o, SignedQuantity(asset));
    }
  }

  lemma UpdateTotals(l: L.Ledger, id: string, s: L.Lifecycle)
    requires L.Valid(l) && L.UpdateOrderState(l, id, s).Ok?
    ensures SameTotals(l, L.UpdateOrderState(l, id, s).value)
  {
    var o := L.FindOrder(l, id).value;
    L.FoundIsStored(l, id);
    RelabelTotals(l, o, s);
  }

  /** Moving an order along its life moves no quantity and no money. */
  lemma RelabelTotals(l: L.Ledger, o: L.Order, s: L.Lifecycle)
    requires Get(l.orders, o.orderId) == Some(o)
    ensures SameTotals(l, l.(orders := Put(l.orders, o.orderId, o.(state := s))))
  {
    var o' := o.(state := s);
    assert o'.Notional() == o.Notional();
    StoredOrderTotals(l, o, o', CASH_FLOW);
    StoredOrderTotals(l, o, o', ORDER_FEES);
    forall asset
      ensures Sum(Put(l.orders, o.orderId, o'), SignedQuantity(asset)) == Sum(l.orders, SignedQuantity(asset))
    {
      StoredOrderTotals(l, o, o', SignedQuantity(asset));
    }
  }

  ghost function Signed(f: L.Fill, x: real): real { if f.side == Buy then x else -x }

  lemma RecordTotals(l: L.Ledger, f: L.Fill, tol: real, l': L.Ledger, asset: string)
    requires L.Valid(l) && L.RecordFill(l, f, tol) == L.Ok((l', true))
    ensures Sum(l'.orders, SignedQuantity(asset)) ==
            Sum(l.orders, SignedQuantity(asset)) + Signed(f, QuantityOf(asset)(f))
    ensures Sum(l'.orders, CASH_FLOW) == Sum(l.orders, CASH_FLOW) - Signed(f, f.Notional()) - f.feeUsd
    ensures Sum(l'.orders, ORDER_FEES) == Sum(l.orders, ORDER_FEES) + f.feeUsd
  {
    var o := L.FindOrder(l, f.orderId).value;
    L.FoundIsStored(l, f.orderId);
    var o' := L.WithFill(o, f, tol);
    StoredOrderTotals(l, o, o', CASH_FLOW);
    StoredOrderTotals(l, o, o', ORDER_FEES);
    StoredOrderTotals(l, o, o', SignedQuantity(asset));
  }

  // ----- one decision, at most one commit -----

  /** The decision's first order exists and its paper fill id is spent. */
  ghost predicate Spent(l: L.Ledger, decision: string) {
    var o := ExistingOrder(l, decision);
    o.Some? && PaperFillId(ClientIdOf(o.value)) in l.processed
  }

  lemma {:induction false} FirstOrderStays(os: Dict<L.Order>, os': Dict<L.Order>, decision: string)
    requires |os| <= |os'|
    requires forall i :: 0 <= i < |os| ==> L.Progress(os[i].1, os'[i].1)
    requires L.OrdersForDecision(os, decision) != []
    ensures L.OrdersForDecision(os', decision) != []
    ensures L.Progress(L.OrdersForDecision(os, decision)[0], L.OrdersForDecision(os', decision)[0])
  {
    if os[0].1.decisionId != decision {
      assert L.OrdersForDecision(os, decision) == L.OrdersForDecision(os[1..], decision);
      assert L.Progress(os[0].1, os'[0].1);
      assert L.OrdersForDecision(os', decision) == L.OrdersForDecision(os'[1..], decision);
      FirstOrderStays(os[1..], os'[1..], decision);
    }
  }

  lemma SpentStays(l: L.Ledger, l': L.Ledger, decision: string)
    requires Spent(l, decision) && L.Evolved(l, l')
    ensures Spent(l', decision)
  {
    FirstOrderStays(l.orders, l'.orders, decision);
  }

  lemma {:induction false} NewOrderIsFirst(os: Dict<L.Order>, o: L.Order)
    requires L.OrdersForDecision(os, o.decisionId) == []
    ensures L.OrdersForDecision(os + [(o.orderId, o)], o.decisionId) == [o]
  {
    if os == [] {
      assert (os + [(o.orderId, o)])[1..] == [];
    } else {
      assert (os + [(o.orderId, o)])[1..] == os[1..] + [(o.orderId, o)];
      NewOrderIsFirst(os[1..], o);
    }
  }

  lemma {:induction false} StoredIsListed(os: Dict<L.Order>, k: string)
    requires Get(os, k).Some?
    ensures L.OrdersForDecision(os, Get(os, k).value.decisionId) != []
  {
    if os[0].0 != k {
      StoredIsListed(os[1..], k);
    }
  }

  lemma {:induction false} ListedIsStored(os: Dict<L.Order>, decision: string) returns (i: nat)
    requires L.OrdersForDecision(os, decision) != []
    ensures i < |os| && os[i].1 == L.OrdersForDecision(os, decision)[0] && os[i].1.decisionId == decision
  {
    if os[0].1.decisionId == decision {
      i := 0;
    } else {
      i := ListedIsStored(os[1..], decision);
      i := i + 1;
    }
  }

  /** Registering the order of a fresh decision makes it that decision's first order. */
  lemma RegisteredFirst(l: L.Ledger, plan: Plan)
    requires ExistingOrder(l, plan.decisionId).None? && L.RegisterOrder(l, NewOrder(plan)).Ok?
    ensures ExistingOrder(L.RegisterOrder(l, NewOrder(plan)).value, plan.decisionId) == Some(NewOrder(plan))
  {
    var o := NewOrder(plan);
    if Get(l.orders, o.orderId).Some? {
      StoredIsListed(l.orders, o.orderId);
    }
    PutAt(l.orders, o.orderId, o);
    NewOrderIsFirst(l.orders, o);
  }

  lemma {:induction false} PutKeepsOthersUnlisted(os: Dict<L.Order>, k: string, o: L.Order, decision: string)
    requires L.OrdersForDecision(os, decision) == [] && o.decisionId != decision
    ensures L.OrdersForDecision(Put(os, k, o), decision) == []
  {
    if os == [] {
      assert Put(os, k, o)[1..] == [];
    } else if os[0].0 == k {
      assert Put(os, k, o)[1..] == os[1..];
    } else {
      assert Put(os, k, o)[1..] == Put(os[1..], k, o);
      PutKeepsOthersUnlisted(os[1..], k, o, decision);
    }
  }

  lemma OthersStayUnlisted(os: Dict<L.Order>, o: L.Order)
    ensures forall d :: d != o.decisionId && L.OrdersForDecision(os, d) == [] ==>
              L.OrdersForDecision(Put(os, o.orderId, o), d) == []
  {
    forall d | d != o.decisionId && L.OrdersForDecision(os, d) == []
      ensures L.OrdersForDecision(Put(os, o.orderId, o), d) == []
    {
      PutKeepsOthersUnlisted(os, o.orderId, o, d);
    }
  }

  lemma RegisterEvolves(l: L.Ledger, o: L.Order)
    requires L.Valid(l) && L.RegisterOrder(l, o).Ok?
    ensures L.Valid(L.RegisterOrder(l, o).value) && L.Evolved(l, L.RegisterOrder(l, o).value)
  {
    L.StepEvolves(l, L.Register(o), 0.0);
  }

  lemma CommitStop(sim: Simulator, intent: Intent, l: L.Ledger, b: P.Book, tol: real,
                   order: L.Order, clientOrderId: string, quantity: Positive, price: Positive)
    requires Commit(sim, intent, l, b, tol, order, clientOrderId, quantity, price).Stop?
    ensures Commit(sim, intent, l, b, tol, order, clientOrderId, quantity, price).ledger == l
  {
  }

  /** Everything `Prepare` does to the ledger: perhaps register a fresh order, then perhaps record
      one fill against the decision's first order. */
  lemma PrepareFactors(sim: Simulator, intent: Intent, mid: real, l: L.Ledger, b: P.Book, tol: real)
    returns (l1: L.Ledger)
    requires L.Valid(l)
    ensures L.Valid(l1) && L.Evolved(l, l1) && SameTotals(l, l1)
    ensures forall d :: d != intent.decisionId && L.OrdersForDecision(l.orders, d) == [] ==>
              L.OrdersForDecision(l1.orders, d) == []
    ensures var p := Prepare(sim, intent, mid, l, b, tol);
            && (p.Stop? ==> p.ledger == l1)
            && (p.Go? ==>
                  && L.RecordFill(l1, p.fill, tol) == L.Ok((p.ledger, true))
                  && ExistingOrder(l1, intent.decisionId).Some?
                  && p.fill.fillId == PaperFillId(ClientIdOf(ExistingOrder(l1, intent.decisionId).value)))
  {
    l1 := l;
    var existing := ExistingOrder(l, intent.decisionId);
    if sim.paperMode && mid > 0.0 && PlanFor(sim, intent, mid, b).Planned? {
      var plan := PlanFor(sim, intent, mid, b).plan;
      if Prepare(sim, intent, mid, l, b, tol) == CommitPlan(sim, intent, l, b, tol, existing, plan) {
        l1 := CommitFactors(sim, intent, l, b, tol, existing, plan);
      }
    }
  }

  lemma CommitFactors(sim: Simulator, intent: Intent, l: L.Ledger, b: P.Book, tol: real,
                      existing: Option<L.Order>, plan: Plan) returns (l1: L.Ledger)
    requires L.Valid(l) && existing == ExistingOrder(l, intent.decisionId) && plan.decisionId == intent.decisionId
    ensures L.Valid(l1) && L.Evolved(l, l1) && SameTotals(l, l1)
    ensures forall d :: d != intent.decisionId && L.OrdersForDecision(l.orders, d) == [] ==>
              L.OrdersForDecision(l1.orders, d) == []
    ensures var p := CommitPlan(sim, intent, l, b, tol, existing, plan);
            && (p.Stop? ==> p.ledger == l1)
            && (p.Go? ==>
                  && L.RecordFill(l1, p.fill, tol) == L.Ok((p.ledger, true))
                  && ExistingOrder(l1, intent.decisionId).Some?
                  && p.fill.fillId == PaperFillId(ClientIdOf(ExistingOrder(l1, intent.decisionId).value)))
  {
    l1 := l;
    var p := CommitPlan(sim, intent, l, b, tol, existing, plan);
    if existing.Some? {
      var o := existing.value;
      var quantity: Positive := if ReduceOnlyCap(b, intent).Some? && plan.quantity < o.requestedQuantity
                                then plan.quantity else o.requestedQuantity;
      if p.Go? {
        CommitGo(sim, intent, l, b, tol, o, ClientIdOf(o), quantity, plan.executionPrice);
      } else {
        CommitStop(sim, intent, l, b, tol, o, ClientIdOf(o), quantity, plan.executionPrice);
      }
    } else if L.RegisterOrder(l, NewOrder(plan)).Ok? {
      l1 := L.RegisterOrder(l, NewOrder(plan)).value;
      RegisterTotals(l, NewOrder(plan));
      RegisterEvolves(l, NewOrder(plan));
      RegisteredFirst(l, plan);
      OthersStayUnlisted(l.orders, NewOrder(plan));
      if p.Go? {
        CommitGo(sim, intent, l1, b, tol, NewOrder(plan), plan.clientOrderId, plan.quantity, plan.executionPrice);
      } else {
        CommitStop(sim, intent, l1, b, tol, NewOrder(plan), plan.clientOrderId, plan.quantity, plan.executionPrice);
      }
    }
  }

  /** A spent decision is answered from the ledger, without committing anything. */
  lemma SpentStops(sim: Simulator, intent: Intent, mid: real, l: L.Ledger, b: P.Book, tol: real)
    requires Spent(l, intent.decisionId)
    ensures Prepare(sim, intent, mid, l, b, tol).Stop?
  {
    if Prepare(sim, intent, mid, l, b, tol).Go? {
      PrepareGo(sim, intent, mid, l, b, tol);
    }
  }

  lemma GoSpends(sim: Simulator, intent: Intent, mid: real, l: L.Ledger, b: P.Book, tol: real)
    requires L.Valid(l) && Prepare(sim, intent, mid, l, b, tol).Go?
    ensures var l' := Prepare(sim, intent, mid, l, b, tol).ledger;
            L.Valid(l') && L.Evolved(l, l') && Spent(l', intent.decisionId)
  {
    var p := Prepare(sim, intent, mid, l, b, tol);
    var l1 := PrepareFactors(sim, intent, mid, l, b, tol);
    L.StepEvolves(l1, L.Record(p.fill), tol);
    FirstOrderStays(l1.orders, p.ledger.orders, intent.decisionId);
  }

  // ----- one attempt -----

  /** The one case in which ledger and book part: the committed sell is above the held quantity,
      inside the slack the short-sale check allows and the book does not. */
  ghost predicate InBand(sim: Simulator, intent: Intent, mid: real, l: L.Ledger, b: P.Book, tol: real) {
    var p := Prepare(sim, intent, mid, l, b, tol);
    p.Go? && intent.side == Sell && p.fill.quantity > P.PositionOf(b, Upper(intent.asset)).quantity
  }

  ghost function Entries(sim: Simulator, intent: Intent, mid: real, l: L.Ledger, b: P.Book, tol: real): seq<Entry> {
    var p := Prepare(sim, intent, mid, l, b, tol);
    if p.Go? then [Entry(intent.decisionId, p.fill, !InBand(sim, intent, mid, l, b, tol))] else []
  }

  lemma EntriesTaken(sim: Simulator, intent: Intent, mid: real, l: L.Ledger, b: P.Book, tol: real)
    ensures AllTaken([] + Entries(sim, intent, mid, l, b, tol)) <==> !InBand(sim, intent, mid, l, b, tol)
  {
    var es := Entries(sim, intent, mid, l, b, tol);
    assert [] + es == es;
    assert es != [] ==> (AllTaken(es) <==> es[0].taken);
  }

  lemma BandBounds(sim: Simulator, intent: Intent, mid: real, l: L.Ledger, b: P.Book, tol: real)
    requires InBand(sim, intent, mid, l, b, tol)
    ensures var held := P.PositionOf(b, Upper(intent.asset)).quantity;
            held < Prepare(sim, intent, mid, l, b, tol).fill.quantity <= held + sim.tolerance
    ensures sim.tolerance > 0.0 && !intent.reduceOnly
  {
    CommittedFill(sim, intent, mid, l, b, tol);
  }

  /** The book's side of a fill: everything it moves if taken, nothing if refused. */
  ghost predicate Booked(b: P.Book, b': P.Book, f: L.Fill, taken: bool) {
    && P.AccountsMove(b, b', f.side, f.quantity, f.priceUsd, f.feeUsd, taken)
    && forall asset :: P.PositionOf(b', asset).quantity ==
                       P.PositionOf(b, asset).quantity + (if taken then Signed(f, QuantityOf(asset)(f)) else 0.0)
  }

  /** The ledger's side of a fill. */
  ghost predicate Recorded(l: L.Ledger, l': L.Ledger, f: L.Fill) {
    && Sum(l'.orders, CASH_FLOW) == Sum(l.orders, CASH_FLOW) - Signed(f, f.Notional()) - f.feeUsd
    && Sum(l'.orders, ORDER_FEES) == Sum(l.orders, ORDER_FEES) + f.feeUsd
    && forall asset :: Sum(l'.orders, SignedQuantity(asset)) ==
                       Sum(l.orders, SignedQuantity(asset)) + Signed(f, QuantityOf(asset)(f))
  }

  lemma FillIsRecorded(l: L.Ledger, l': L.Ledger, f: L.Fill, tol: real)
    requires L.Valid(l) && L.RecordFill(l, f, tol) == L.Ok((l', true))
    ensures Recorded(l, l', f)
  {
    RecordTotals(l, f, tol, l', f.asset);
    forall asset {
      RecordTotals(l, f, tol, l', asset);
    }
  }

  lemma FillIsBookedAt(b: P.Book, f: L.Fill, now: real, asset: string)
    requires Upper(f.asset) == f.asset
    ensures var (b', e) := P.ApplyFill(b, f.asset, f.side, f.quantity, f.priceUsd, f.feeUsd, now, None);
            P.PositionOf(b', asset).quantity ==
            P.PositionOf(b, asset).quantity + (if e.None? then Signed(f, QuantityOf(asset)(f)) else 0.0)
  {
    P.FillEffect(b, f.asset, f.side, f.quantity, f.priceUsd, f.feeUsd, now, None, asset);
  }

  lemma FillMovesAccounts(b: P.Book, f: L.Fill, now: real)
    requires Upper(f.asset) == f.asset
    ensures var (b', e) := P.ApplyFill(b, f.asset, f.side, f.quantity, f.priceUsd, f.feeUsd, now, None);
            && P.AccountsMove(b, b', f.side, f.quantity, f.priceUsd, f.feeUsd, e.None?)
            && (e.None? <==> f.side == Buy || f.quantity <= P.PositionOf(b, f.asset).quantity)
  {
    P.FillEffect(b, f.asset, f.side, f.quantity, f.priceUsd, f.feeUsd, now, None, f.asset);
  }

  lemma FillIsBooked(b: P.Book, f: L.Fill, now: real)
    requires Upper(f.asset) == f.asset
    ensures var (b', e) := P.ApplyFill(b, f.asset, f.side, f.quantity, f.priceUsd, f.feeUsd, now, None);
            && Booked(b, b', f, e.None?)
            && (e.None? <==> f.side == Buy || f.quantity <= P.PositionOf(b, f.asset).quantity)
  {
    FillMovesAccounts(b, f, now);
    forall asset {
      FillIsBookedAt(b, f, now, asset);
    }
  }

  /** A fill committed by the ledger and put to the book moves both stories together, or joins
      the log as refused. */
  lemma FillReconciles(l: L.Ledger, l': L.Ledger, b: P.Book, b': P.Book, log: seq<Entry>, entry: Entry)
    requires Reconciles(l, b, log) && Recorded(l, l', entry.fill) && Booked(b, b', entry.fill, entry.taken)
    requires !entry.taken ==> entry.fill.side == Sell
    ensures Reconciles(l', b', log + [entry])
  {
    CashReconciles(l, l', b, b', log, entry);
    FeesReconcile(l, l', b, b', log, entry);
    forall asset
      ensures P.PositionOf(b', asset).quantity ==
              Sum(l'.orders, SignedQuantity(asset)) + Missing(log + [entry], QuantityOf(asset))
    {
      QuantityReconciles(l, l', b, b', log, entry, asset);
    }
  }

  lemma CashReconciles(l: L.Ledger, l': L.Ledger, b: P.Book, b': P.Book, log: seq<Entry>, entry: Entry)
    requires Reconciles(l, b, log) && Recorded(l, l', entry.fill) && Booked(b, b', entry.fill, entry.taken)
    requires !entry.taken ==> entry.fill.side == Sell
    ensures b'.cash + Missing(log + [entry], PROCEEDS) == b'.startingNav + Sum(l'.orders, CASH_FLOW)
  {
    MissingAppend(log, entry, PROCEEDS);
  }

  lemma FeesReconcile(l: L.Ledger, l': L.Ledger, b: P.Book, b': P.Book, log: seq<Entry>, entry: Entry)
    requires Reconciles(l, b, log) && Recorded(l, l', entry.fill) && Booked(b, b', entry.fill, entry.taken)
    ensures Sum(b'.positions, P.FEES) + Missing(log + [entry], FILL_FEE) == Sum(l'.orders, ORDER_FEES)
  {
    MissingAppend(log, entry, FILL_FEE);
  }

  lemma QuantityReconciles(l: L.Ledger, l': L.Ledger, b: P.Book, b': P.Book, log: seq<Entry>, entry: Entry,
                           asset: string)
    requires Reconciles(l, b, log) && Recorded(l, l', entry.fill) && Booked(b, b', entry.fill, entry.taken)
    requires !entry.taken ==> entry.fill.side == Sell
    ensures P.PositionOf(b', asset).quantity ==
            Sum(l'.orders, SignedQuantity(asset)) + Missing(log + [entry], QuantityOf(asset))
  {
    MissingAppend(log, entry, QuantityOf(asset));
  }

  lemma AttemptReconciles(sim: Simulator, intent: Intent, mid: real, l: L.Ledger, b: P.Book, tol: real, now: real,
                          log: seq<Entry>)
    requires L.Valid(l) && Reconciles(l, b, log)
    ensures var (l', b', _) := Apply(sim, intent, mid, l, b, tol, now);
            && L.Valid(l') && L.Evolved(l, l')
            && Reconciles(l', b', log + Entries(sim, intent, mid, l, b, tol))
  {
    var p := Prepare(sim, intent, mid, l, b, tol);
    var l1 := PrepareFactors(sim, intent, mid, l, b, tol);
    assert Reconciles(l1, b, log);
    if p.Go? {
      GoSpends(sim, intent, mid, l, b, tol);
      CommittedFill(sim, intent, mid, l, b, tol);
      UpperIdempotent(intent.asset);
      FillIsRecorded(l1, p.ledger, p.fill, tol);
      FillIsBooked(b, p.fill, now);
      FillReconciles(l1, p.ledger, b, Apply(sim, intent, mid, l, b, tol, now).1, log,
                     Entries(sim, intent, mid, l, b, tol)[0]);
    } else {
      assert log + [] == log;
    }
  }

  /** From agreement, one attempt keeps agreement exactly when it is not in the band. */
  lemma AgreementKeptExactlyOutsideTheBand(sim: Simulator, intent: Intent, mid: real, l: L.Ledger, b: P.Book,
                                           tol: real, now: real)
    requires L.Valid(l) && Agree(l, b)
    ensures var (l', b', _) := Apply(sim, intent, mid, l, b, tol, now);
            Agree(l', b') <==> !InBand(sim, intent, mid, l, b, tol)
  {
    assert Reconciles(l, b, []);
    AttemptReconciles(sim, intent, mid, l, b, tol, now, []);
    EntriesTaken(sim, intent, mid, l, b, tol);
    var after := Apply(sim, intent, mid, l, b, tol, now);
    AgreeIffAllTaken(after.0, after.1, [] + Entries(sim, intent, mid, l, b, tol));
  }

  // ----- runs -----

  datatype Event =
    | Attempt(intent: Intent, mid: real, now: real)
    | Register(order: L.Order)
    | UpdateState(id: string, state: L.Lifecycle)
    | Mark(asset: string, price: real)
    | Observe(now: real)
    | RestartLedger(saved: L.LedgerState)
    | RestartBook

  datatype System = System(ledger: L.Ledger, book: P.Book, log: seq<Entry>)

  ghost function Step(sim: Simulator, tol: real, s: System, e: Event): System {
    match e
    case Attempt(intent, mid, now) =>
      var (l', b', _) := Apply(sim, intent, mid, s.ledger, s.book, tol, now);
      System(l', b', s.log + Entries(sim, intent, mid, s.ledger, s.book, tol))
    case Register(o) => s.(ledger := L.Step(s.ledger, L.Register(o), tol))
    case UpdateState(id, st) => s.(ledger := L.Step(s.ledger, L.Update(id, st), tol))
    case Mark(asset, price) => s.(book := P.Mark(s.book, asset, price).0)
    case Observe(now) => s.(book := P.TakeSnapshot(s.book, now).0)
    case RestartLedger(saved) => s.(ledger := L.Step(s.ledger, L.Restart(saved), tol))
    case RestartBook => s.(book := if P.SaveBook(s.book).Some? then P.LoadBook(P.SaveBook(s.book).value) else s.book)
  }

  ghost function Run(sim: Simulator, tol: real, s: System, es: seq<Event>): System {
    if es == [] then s else Step(sim, tol, Run(sim, tol, s, es[..|es| - 1]), es[|es| - 1])
  }

  ghost predicate Sound(s: System) {
    && L.Valid(s.ledger) && P.Valid(s.book) && P.CostIdentity(s.book)
    && Reconciles(s.ledger, s.book, s.log)
    && (forall i :: 0 <= i < |s.log| ==> Spent(s.ledger, s.log[i].decision))
    && (forall i, j :: 0 <= i < j < |s.log| ==> s.log[i].decision != s.log[j].decision)
    && (forall i :: 0 <= i < |s.log| && !s.log[i].taken ==> s.log[i].fill.side == Sell)
  }

  lemma AttemptStaysSound(sim: Simulator, tol: real, s: System, intent: Intent, mid: real, now: real)
    requires Sound(s)
    ensures Sound(Step(sim, tol, s, Attempt(intent, mid, now)))
  {
    var p := Prepare(sim, intent, mid, s.ledger, s.book, tol);
    var s' := Step(sim, tol, s, Attempt(intent, mid, now));
    AttemptReconciles(sim, intent, mid, s.ledger, s.book, tol, now, s.log);
    forall i | 0 <= i < |s.log|
      ensures Spent(s'.ledger, s.log[i].decision)
      ensures p.Go? ==> s.log[i].decision != intent.decisionId
    {
      SpentStays(s.ledger, s'.ledger, s.log[i].decision);
      if s.log[i].decision == intent.decisionId {
        SpentStops(sim, intent, mid, s.ledger, s.book, tol);
      }
    }
    if p.Go? {
      GoSpends(sim, intent, mid, s.ledger, s.book, tol);
      P.FillKeepsIdentity(s.book, p.fill.asset, p.fill.side, p.fill.quantity, p.fill.priceUsd, p.fill.feeUsd, now,
                          None);
      CommittedFill(sim, intent, mid, s.ledger, s.book, tol);
    }
  }

  lemma LedgerStepStaysSound(s: System, e: L.Event, tol: real)
    requires Sound(s) && SameTotals(s.ledger, L.Step(s.ledger, e, tol))
    ensures Sound(s.(ledger := L.Step(s.ledger, e, tol)))
  {
    var l' := L.Step(s.ledger, e, tol);
    L.StepEvolves(s.ledger, e, tol);
    forall i | 0 <= i < |s.log|
      ensures Spent(l', s.log[i].decision)
    {
      SpentStays(s.ledger, l', s.log[i].decision);
    }
  }

  lemma MarkStaysSound(s: System, asset: string, price: real)
    requires Sound(s)
    ensures Sound(s.(book := P.Mark(s.book, asset, price).0))
  {
    if price > 0.0 {
      var key := Upper(asset);
      UpperIdempotent(asset);
      P.SettledKeepsIdentity(s.book, key, price);
      P.MarkedKeeps(s.book, key, price, key);
      P.MarkedStaysValid(s.book, key, price);
      forall q
        ensures P.PositionOf(P.Marked(s.book, key, price), q).quantity == P.PositionOf(s.book, q).quantity
      {
        P.MarkedKeeps(s.book, key, price, q);
      }
    }
  }

  lemma ObserveStaysSound(s: System, now: real)
    requires Sound(s)
    ensures Sound(s.(book := P.TakeSnapshot(s.book, now).0))
  {
    var b' := P.TakeSnapshot(s.book, now).0;
    assert b'.positions == s.book.positions && b'.marks == s.book.marks;
    assert forall q :: P.PositionOf(b', q) == P.PositionOf(s.book, q);
  }

  lemma RegisterStaysSound(sim: Simulator, tol: real, s: System, o: L.Order)
    requires Sound(s) && L.Fresh(o)
    ensures Sound(Step(sim, tol, s, Register(o)))
  {
    if L.RegisterOrder(s.ledger, o).Ok? {
      RegisterTotals(s.ledger, o);
    }
    LedgerStepStaysSound(s, L.Register(o), tol);
  }

  lemma UpdateStaysSound(sim: Simulator, tol: real, s: System, id: string, st: L.Lifecycle)
    requires Sound(s)
    ensures Sound(Step(sim, tol, s, UpdateState(id, st)))
  {
    if L.UpdateOrderState(s.ledger, id, st).Ok? {
      UpdateTotals(s.ledger, id, st);
    }
    LedgerStepStaysSound(s, L.Update(id, st), tol);
  }

  lemma RestartStaysSound(s: System)
    requires Sound(s)
    ensures Sound(s.(book := if P.SaveBook(s.book).Some? then P.LoadBook(P.SaveBook(s.book).value) else s.book))
  {
    P.RestartIsIdentity(s.book);
  }

  lemma StepStaysSound(sim: Simulator, tol: real, s: System, e: Event)
    requires Sound(s) && (e.Register? ==> L.Fresh(e.order))
    ensures Sound(Step(sim, tol, s, e))
  {
    match e {
      case Attempt(intent, mid, now) => AttemptStaysSound(sim, tol, s, intent, mid, now);
      case Register(o) => RegisterStaysSound(sim, tol, s, o);
      case UpdateState(id, st) => UpdateStaysSound(sim, tol, s, id, st);
      case Mark(asset, price) => MarkStaysSound(s, asset, price);
      case Observe(now) => ObserveStaysSound(s, now);
      case RestartLedger(saved) =>
        assert Step(sim, tol, s, e) == s;
      case RestartBook => RestartStaysSound(s);
    }
  }

  ghost function Start(startingNav: Positive): System {
    System(L.EMPTY, P.Opening(startingNav), [])
  }

  /** Over every run of attempts, registrations, venue updates, marks, snapshots and restarts:
      no decision is committed twice; cash plus inventory at cost is the starting value plus
      realized PnL; quantity, cash and fees reconcile with the ledger up to the refused sells; and
      book and ledger agree at the end exactly when no attempt of the run fell in the band. */
  lemma {:induction false} BookOfRecordOverEveryRun(sim: Simulator, tol: real, startingNav: Positive, es: seq<Event>)
    requires forall i :: 0 <= i < |es| && es[i].Register? ==> L.Fresh(es[i].order)
    ensures var s := Run(sim, tol, Start(startingNav), es);
            Sound(s) && (Agree(s.ledger, s.book) <==> AllTaken(s.log))
  {
    var s := Run(sim, tol, Start(startingNav), es);
    if es != [] {
      BookOfRecordOverEveryRun(sim, tol, startingNav, es[..|es| - 1]);
      StepStaysSound(sim, tol, Run(sim, tol, Start(startingNav), es[..|es| - 1]), es[|es| - 1]);
    }
    AgreeIffAllTaken(s.ledger, s.book, s.log);
  }

  // ----- the band is reached -----

  ghost function SameId(): string -> string { (d: string) => d }

  /** No fee, no slippage, lots of one unit. */
  ghost function UnitSimulator(tolerance: NonNegative): Simulator {
    Simulator(Planner(1.0, 1.0, 0.0), 0.0, 0.0, true, tolerance, SameId())
  }

  lemma UnitPlan(tolerance: NonNegative, intent: Intent, b: P.Book)
    requires intent.notional == 1.0 && !intent.reduceOnly
    ensures PlanFor(UnitSimulator(tolerance), intent, 1.0, b) ==
            Planned(Plan(intent.decisionId, intent.decisionId, Upper(intent.asset), intent.side, 1.0, 1.0))
  {
  }

  /** A buy planned elsewhere, short of a whole lot by the slack. */
  ghost function OddOrder(asset: string, tolerance: Positive): L.Order
    requires tolerance < 1.0
  {
    L.Order("b", "b", asset, Buy, 1.0 - tolerance, L.Planned, 0.0, None, None, None, 0.0, None)
  }

  lemma OddBuyCommits(asset: string, tolerance: Positive)
    requires Upper(asset) == asset && tolerance < 1.0
    ensures var l := L.Ledger([("b", OddOrder(asset, tolerance))], {});
            var p := Prepare(UnitSimulator(tolerance), Intent("b", asset, Buy, 1.0, false), 1.0, l, P.Opening(2.0),
                             0.0);
            && p.Go? && p.fill.asset == asset && p.fill.side == Buy && p.fill.quantity == 1.0 - tolerance
            && p.ledger.processed == {PaperFillId("b")}
            && |p.ledger.orders| == 1 && p.ledger.orders[0].0 == "b" && p.ledger.orders[0].1.decisionId == "b"
  {
    var o := OddOrder(asset, tolerance);
    var l, intent := L.Ledger([("b", o)], {}), Intent("b", asset, Buy, 1.0, false);
    UnitPlan(tolerance, intent, P.Opening(2.0));
    assert l.orders[1..] == [];
    assert ExistingOrder(l, "b") == Some(o) by {
      assert L.OrdersForDecision(l.orders[1..], "b") == [];
    }
    assert L.FindOrder(l, "b") == Some(o);
  }

  /** The system after the odd order is registered and bought. */
  ghost function OddHolding(asset: string, tolerance: Positive): System
    requires tolerance < 1.0
  {
    var s := Start(2.0).(ledger := L.Ledger([("b", OddOrder(asset, tolerance))], {}));
    Step(UnitSimulator(tolerance), 0.0, s, Attempt(Intent("b", asset, Buy, 1.0, false), 1.0, 0.0))
  }

  lemma OddHoldingHolds(asset: string, tolerance: Positive)
    requires Upper(asset) == asset && tolerance < 1.0
    ensures var s := OddHolding(asset, tolerance);
            && P.PositionOf(s.book, asset).quantity == 1.0 - tolerance
            && ExistingOrder(s.ledger, "s").None? && Get(s.ledger.orders, "s").None?
            && PaperFillId("s") !in s.ledger.processed
  {
    var s := OddHolding(asset, tolerance);
    OddBuyCommits(asset, tolerance);
    var l := L.Ledger([("b", OddOrder(asset, tolerance))], {});
    var f := Prepare(UnitSimulator(tolerance), Intent("b", asset, Buy, 1.0, false), 1.0, l, P.Opening(2.0), 0.0).fill;
    P.FillEffect(P.Opening(2.0), asset, Buy, f.quantity, f.priceUsd, f.feeUsd, 0.0, None, asset);
    assert s.ledger.orders[1..] == [];
    assert L.OrdersForDecision(s.ledger.orders[1..], "s") == [] && Get(s.ledger.orders[1..], "s").None?;
    assert PaperFillId("s")[|PaperFillId("")|] != PaperFillId("b")[|PaperFillId("")|];
  }

  ghost function BandEvents(asset: string, tolerance: Positive): seq<Event>
    requires tolerance < 1.0
  {
    [Register(OddOrder(asset, tolerance)), Attempt(Intent("b", asset, Buy, 1.0, false), 1.0, 0.0),
     Attempt(Intent("s", asset, Sell, 1.0, false), 1.0, 0.0)]
  }

  lemma OddSaleIsInBand(asset: string, tolerance: Positive)
    requires Upper(asset) == asset && tolerance < 1.0
    ensures var s := OddHolding(asset, tolerance);
            InBand(UnitSimulator(tolerance), Intent("s", asset, Sell, 1.0, false), 1.0, s.ledger, s.book, 0.0)
  {
    var s, intent := OddHolding(asset, tolerance), Intent("s", asset, Sell, 1.0, false);
    OddHoldingHolds(asset, tolerance);
    UnitPlan(tolerance, intent, s.book);
    FreshPlanCommits(UnitSimulator(tolerance), intent, 1.0, s.ledger, s.book, 0.0);
  }

  /** The ledger books the sale and the book refuses it. */
  lemma OddSaleIsRefused(asset: string, tolerance: Positive)
    requires Upper(asset) == asset && tolerance < 1.0
    ensures !AllTaken(Step(UnitSimulator(tolerance), 0.0, OddHolding(asset, tolerance),
                           Attempt(Intent("s", asset, Sell, 1.0, false), 1.0, 0.0)).log)
  {
    OddSaleIsInBand(asset, tolerance);
    var log := Step(UnitSimulator(tolerance), 0.0, OddHolding(asset, tolerance),
                    Attempt(Intent("s", asset, Sell, 1.0, false), 1.0, 0.0)).log;
    assert !log[|log| - 1].taken;
  }

  lemma RunThree(sim: Simulator, tol: real, s: System, e1: Event, e2: Event, e3: Event)
    ensures Run(sim, tol, s, [e1, e2, e3]) == Step(sim, tol, Step(sim, tol, Step(sim, tol, s, e1), e2), e3)
  {
    assert [e1, e2, e3][..2] == [e1, e2] && [e1, e2][..1] == [e1] && [e1][..0] == [];
    assert Run(sim, tol, s, []) == s;
    assert Run(sim, tol, s, [e1]) == Step(sim, tol, s, e1);
    assert Run(sim, tol, s, [e1, e2]) == Step(sim, tol, Step(sim, tol, s, e1), e2);
  }

  lemma OddSaleEndsTheRun(asset: string, tolerance: Positive)
    requires tolerance < 1.0
    ensures Run(UnitSimulator(tolerance), 0.0, Start(2.0), BandEvents(asset, tolerance)) ==
            Step(UnitSimulator(tolerance), 0.0, OddHolding(asset, tolerance),
                 Attempt(Intent("s", asset, Sell, 1.0, false), 1.0, 0.0))
  {
    var (sim, es) := (UnitSimulator(tolerance), BandEvents(asset, tolerance));
    RunThree(sim, 0.0, Start(2.0), es[0], es[1], es[2]);
    OddOrderRegisters(sim, asset, tolerance);
  }

  lemma OddOrderRegisters(sim: Simulator, asset: string, tolerance: Positive)
    requires tolerance < 1.0
    ensures Step(sim, 0.0, Start(2.0), Register(OddOrder(asset, tolerance))) ==
            Start(2.0).(ledger := L.Ledger([("b", OddOrder(asset, tolerance))], {}))
  {
  }

  lemma BandRunIsNotTaken(asset: string, tolerance: Positive)
    requires Upper(asset) == asset && tolerance < 1.0
    ensures !AllTaken(Run(UnitSimulator(tolerance), 0.0, Start(2.0), BandEvents(asset, tolerance)).log)
  {
    OddSaleEndsTheRun(asset, tolerance);
    OddSaleIsRefused(asset, tolerance);
  }

  /** Whatever the slack, a run from a new book falls into the band: an order registered short of a
      whole lot by the slack is bought, a whole lot is sold, and ledger and book part. */
  lemma BandIsReached(asset: string, tolerance: Positive)
    requires Upper(asset) == asset && tolerance < 1.0
    ensures var s := Run(UnitSimulator(tolerance), 0.0, Start(2.0), BandEvents(asset, tolerance));
            L.Fresh(OddOrder(asset, tolerance)) && !AllTaken(s.log) && !Agree(s.ledger, s.book)
  {
    BandRunIsNotTaken(asset, tolerance);
    BookOfRecordOverEveryRun(UnitSimulator(tolerance), 0.0, 2.0, BandEvents(asset, tolerance));
  }
}
