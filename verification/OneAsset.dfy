/** Solvency when only one asset can ever be held, because one slot or one listed asset is all there is. Then
    the asset's own limits bound all that is not cash, and more of a fee fits. */
module OneAsset {
  import opened Common
  import opened Dictionary
  import opened Planning
  import opened PaperFills
  import opened Risk
  import opened Solvency
  import H = Holdings
  import L = Ledgers
  import P = Portfolio

  predicate Listed(c: Settings, asset: string) { asset in c.assets && Upper(asset) == asset }

  /** Two assets can be held at once. */
  ghost predicate Diverse(c: Settings) {
    c.maxOpenPositions >= 2 && exists a, o :: Listed(c, a) && Listed(c, o) && a != o
  }

  /** No fee eats a whole sale, and the fee on the largest buy fits into what it leaves. */
  ghost predicate FeesFitAlone(c: Settings, feeBps: real) {
    feeBps <= 10000.0 && FeeOn(LargestBuy(c), feeBps) <= 1.0 - LargestBuy(c)
  }

  ghost predicate Held(b: P.Book, key: string) { P.PositionOf(b, key).quantity > 0.0 }

  /** What is held is listed, and is one asset. */
  ghost predicate OneHeld(c: Settings, b: P.Book) {
    && (forall k :: Held(b, k) ==> Listed(c, k))
    && (forall j, k :: Held(b, j) && Held(b, k) ==> j == k)
  }

  ghost predicate OnlyHeld(b: P.Book, key: string) { forall k :: Held(b, k) ==> k == key }

  // ----- what the snapshot shows -----

  lemma {:induction false} NoExposure(ps: Dict<P.Position>, marks: Dict<Positive>)
    requires forall i :: 0 <= i < |ps| ==> ps[i].1.quantity == 0.0
    ensures P.Exposures(ps, marks) == []
  {
    if ps != [] {
      NoExposure(ps[1..], marks);
    }
  }

  lemma {:induction false} OnlyExposure(ps: Dict<P.Position>, marks: Dict<Positive>, key: string)
    requires Distinct(ps) && forall i :: 0 <= i < |ps| ==> ps[i].1.quantity == 0.0 || ps[i].0 == key
    ensures var e: Option<NonNegative> := Get<NonNegative>(P.Exposures(ps, marks), key);
            Gross(P.Exposures(ps, marks)) == if e.Some? then e.value else 0.0
  {
    if ps != [] {
      assert forall i :: 0 <= i < |ps| - 1 ==> ps[1..][i] == ps[i + 1];
      if ps[0].1.quantity > 0.0 {
        NoExposure(ps[1..], marks);
        assert P.Exposures(ps, marks)[1..] == [];
        assert Sum<NonNegative>(P.Exposures(ps, marks)[1..], P.AMOUNT) == 0.0;
      } else {
        OnlyExposure(ps[1..], marks, key);
      }
    }
  }

  /** When one asset is all that is held, its exposure is the gross exposure. */
  lemma GrossIsItsOwn(b: P.Book, at: real, asset: string)
    requires P.Valid(b) && P.TakeSnapshot(b, at).1.Some? && OnlyHeld(b, Upper(asset))
    ensures var s := P.TakeSnapshot(b, at).1.value; Gross(s.exposures) == Existing(s, asset)
  {
    forall i | 0 <= i < |b.positions|
      ensures b.positions[i].1.quantity == 0.0 || b.positions[i].0 == Upper(asset)
    {
      GetAt(b.positions, i);
      assert b.positions[i].1.quantity > 0.0 ==> Held(b, b.positions[i].0);
    }
    OnlyExposure(b.positions, b.marks, Upper(asset));
  }

  lemma {:induction false} ShownIsCounted(exposures: Dict<NonNegative>, key: string)
    requires Get<NonNegative>(exposures, key).Some? && Get<NonNegative>(exposures, key).value > 0.0
    ensures OpenCount(exposures) >= 1
  {
    if exposures[0].0 != key {
      ShownIsCounted(exposures[1..], key);
    }
  }

  /** Whatever is held takes a slot. */
  lemma HeldTakesASlot(b: P.Book, at: real, key: string)
    requires P.Valid(b) && P.TakeSnapshot(b, at).1.Some? && Held(b, key)
    ensures OpenCount(P.TakeSnapshot(b, at).1.value.exposures) >= 1
  {
    var p := P.PositionOf(b, key);
    P.SnapshotEntry(b.positions, b.marks, key);
    P.HeldFits(b, key);
    ProductPositive(p.quantity, P.MarkOr(b.marks, key, p));
    ShownIsCounted(P.TakeSnapshot(b, at).1.value.exposures, key);
  }

  lemma NotHeldShowsNothing(b: P.Book, at: real, asset: string)
    requires P.Valid(b) && P.TakeSnapshot(b, at).1.Some? && !Held(b, Upper(asset))
    ensures Existing(P.TakeSnapshot(b, at).1.value, asset) == 0.0
  {
    P.SnapshotEntry(b.positions, b.marks, Upper(asset));
  }

  // ----- an approved buy is of the one asset -----

  lemma ApprovedIsUnblocked(c: Settings, q: Query)
    requires q.proposal.side == Buy && Approved(c, q) > 0.0
    ensures Upper(q.proposal.asset) in c.assets && !NoFreeSlot(c, q.snapshot, q.proposal.asset)
  {
  }

  /** A buy is approved only of a listed asset beside which nothing else is held. */
  lemma ApprovedBuyIsOfTheOne(c: Settings, b: P.Book, at: real, q: Query)
    requires P.Valid(b) && OneHeld(c, b) && !Diverse(c) && P.TakeSnapshot(b, at).1 == Some(q.snapshot)
    requires q.proposal.side == Buy && Approved(c, q) > 0.0
    ensures Listed(c, Upper(q.proposal.asset)) && OnlyHeld(b, Upper(q.proposal.asset))
  {
    var key := Upper(q.proposal.asset);
    ApprovedIsUnblocked(c, q);
    UpperIdempotent(q.proposal.asset);
    forall k | Held(b, k)
      ensures k == key
    {
      HeldTakesASlot(b, at, k);
      if !Held(b, key) {
        NotHeldShowsNothing(b, at, q.proposal.asset);
        assert c.maxOpenPositions >= 2 && Listed(c, k) && Listed(c, key);
      }
    }
  }

  /** With one asset, all that is not cash is that asset, and its limits hold it. */
  lemma AloneIsBounded(c: Settings, s: P.Snapshot, approved: real, existing: NonNegative)
    requires Adds(s) && existing == Gross(s.exposures) && approved <= s.cash - CashFloor(c, s)
    requires approved + existing <= PositionCap(c, s) && approved + Gross(s.exposures) <= GrossCap(c, s)
    ensures approved <= s.cash - Times(s.nav, 1.0 - LargestBuy(c)) && approved <= Times(s.nav, LargestBuy(c))
  {
    GrossNonNegative(s.exposures);
    PartLeft(s.nav, LargestBuy(c));
    PartLeft(s.nav, c.minCashReservePct);
  }

  lemma AloneFeeFits(c: Settings, nav: Positive, feeBps: NonNegative, notional: real)
    requires FeesFitAlone(c, feeBps) && notional <= Times(nav, LargestBuy(c))
    ensures FeeOn(notional, feeBps) <= Times(nav, 1.0 - LargestBuy(c))
  {
    FeeGrows(notional, Times(nav, LargestBuy(c)), feeBps);
    FeeScales(nav, LargestBuy(c), feeBps);
    ProductGrows(nav, FeeOn(LargestBuy(c), feeBps), 1.0 - LargestBuy(c));
  }

  lemma AloneIsAffordable(c: Settings, q: Query, feeBps: NonNegative)
    requires FeesFitAlone(c, feeBps) && Adds(q.snapshot)
    requires q.proposal.side == Buy && Approved(c, q) > 0.0 ==>
               Gross(q.snapshot.exposures) == Existing(q.snapshot, q.proposal.asset)
    ensures Affordable(c, q, feeBps)
  {
    ApprovalBounds(c, q);
    if q.proposal.side == Buy && Approved(c, q) > 0.0 {
      AddingStaysInside(c, q);
      AloneIsBounded(c, q.snapshot, Approved(c, q), Existing(q.snapshot, q.proposal.asset));
      AloneFeeFits(c, q.snapshot.nav, feeBps, Approved(c, q));
    }
  }

  // ----- every cycle keeps it so -----

  lemma MarkKeepsHeld(b: P.Book, asset: string, price: real, k: string)
    ensures Held(P.Mark(b, asset, price).0, k) <==> Held(b, k)
  {
    if price > 0.0 {
      P.MarkedKeeps(b, Upper(asset), price, k);
    }
  }

  lemma MarkKeepsOne(c: Settings, b: P.Book, asset: string, price: real)
    requires P.Valid(b) && OneHeld(c, b)
    ensures P.Valid(P.Mark(b, asset, price).0) && OneHeld(c, P.Mark(b, asset, price).0)
  {
    H.StepStaysValid(b, H.Marked(asset, price));
    forall k
      ensures Held(P.Mark(b, asset, price).0, k) <==> Held(b, k)
    {
      MarkKeepsHeld(b, asset, price, k);
    }
  }

  lemma SnapshotKeepsOne(c: Settings, b: P.Book, at: real)
    requires P.Valid(b) && OneHeld(c, b)
    ensures P.Valid(P.TakeSnapshot(b, at).0) && OneHeld(c, P.TakeSnapshot(b, at).0)
  {
    var b1 := P.TakeSnapshot(b, at).0;
    assert forall k :: P.PositionOf(b1, k) == P.PositionOf(b, k);
    assert forall k :: Held(b1, k) <==> Held(b, k);
  }

  lemma FillHolds(b: P.Book, f: L.Fill, now: real, k: string)
    requires Upper(f.asset) == f.asset
    requires Held(P.ApplyFill(b, f.asset, f.side, f.quantity, f.priceUsd, f.feeUsd, now, None).0, k)
    ensures Held(b, k) || (f.side == Buy && k == f.asset)
  {
    P.FillEffect(b, f.asset, f.side, f.quantity, f.priceUsd, f.feeUsd, now, None, k);
  }

  lemma FillKeepsOne(c: Settings, b: P.Book, f: L.Fill, now: real)
    requires P.Valid(b) && OneHeld(c, b) && Upper(f.asset) == f.asset
    requires f.side == Buy ==> Listed(c, f.asset) && OnlyHeld(b, f.asset)
    ensures var b' := P.ApplyFill(b, f.asset, f.side, f.quantity, f.priceUsd, f.feeUsd, now, None).0;
            P.Valid(b') && OneHeld(c, b')
  {
    var b' := P.ApplyFill(b, f.asset, f.side, f.quantity, f.priceUsd, f.feeUsd, now, None).0;
    H.StepStaysValid(b, H.Filled(f.asset, f.side, f.quantity, f.priceUsd, f.feeUsd, now, None));
    forall k | Held(b', k)
      ensures Held(b, k) || (f.side == Buy && k == f.asset)
    {
      FillHolds(b, f, now, k);
    }
  }

  lemma AttemptKeepsOne(sim: Simulator, c: Settings, intent: Intent, mid: real, l: L.Ledger, b: P.Book, tol: real,
                        now: real)
    requires P.Valid(b) && OneHeld(c, b)
    requires intent.side == Buy ==> Listed(c, Upper(intent.asset)) && OnlyHeld(b, Upper(intent.asset))
    ensures var b' := Apply(sim, intent, mid, l, b, tol, now).1; P.Valid(b') && OneHeld(c, b')
  {
    var p := Prepare(sim, intent, mid, l, b, tol);
    if p.Go? {
      CommittedFill(sim, intent, mid, l, b, tol);
      UpperIdempotent(intent.asset);
      FillKeepsOne(c, b, p.fill, now);
    }
  }

  lemma IntentOfTheOne(c: Settings, b: P.Book, y: Cycle, s: P.Snapshot)
    requires P.Valid(b) && OneHeld(c, b) && !Diverse(c) && P.TakeSnapshot(b, y.snapshotAt).1 == Some(s)
    ensures var intent := IntentFor(c, QueryOf(y, s), y.reduceOnly);
            intent.Some? && intent.value.side == Buy ==>
              Listed(c, Upper(intent.value.asset)) && OnlyHeld(b, Upper(intent.value.asset))
  {
    var q := QueryOf(y, s);
    if q.proposal.side == Buy && Approved(c, q) > 0.0 {
      ApprovedBuyIsOfTheOne(c, b, y.snapshotAt, q);
    }
  }

  lemma FillStepKeepsOne(sim: Simulator, c: Settings, tol: real, l: L.Ledger, b: P.Book, e: Execution,
                         intent: Option<Intent>)
    requires P.Valid(b) && OneHeld(c, b)
    requires intent.Some? && intent.value.side == Buy ==>
               Listed(c, Upper(intent.value.asset)) && OnlyHeld(b, Upper(intent.value.asset))
    ensures var b' := FillStep(sim, tol, intent, e, l, b).1; P.Valid(b') && OneHeld(c, b')
  {
    if intent.Some? {
      AttemptKeepsOne(sim, c, intent.value, e.mid, l, b, tol, e.at);
    }
  }

  lemma CycleKeepsOne(sim: Simulator, c: Settings, tol: real, l: L.Ledger, b: P.Book, y: Cycle)
    requires P.Valid(b) && OneHeld(c, b) && !Diverse(c)
    ensures var b' := CycleStep(sim, c, tol, l, b, y).1; P.Valid(b') && OneHeld(c, b')
  {
    SnapshotKeepsOne(c, b, y.snapshotAt);
    var (b1, s) := P.TakeSnapshot(b, y.snapshotAt);
    if s.Some? {
      var intent := IntentFor(c, QueryOf(y, s.value), y.reduceOnly);
      IntentOfTheOne(c, b, y, s.value);
      assert forall k :: Held(b1, k) <==> Held(b, k);
      FillStepKeepsOne(sim, c, tol, l, b1, y.execution, intent);
      var b2 := FillStep(sim, tol, intent, y.execution, l, b1).1;
      if y.last.Some? {
        MarkKeepsOne(c, b2, y.proposal.asset, y.last.value);
      }
    }
  }

  lemma AloneCycleIsSolvent(sim: Simulator, c: Settings, tol: real, l: L.Ledger, b: P.Book, y: Cycle)
    requires P.Valid(b) && OneHeld(c, b) && !Diverse(c) && FeesFitAlone(c, sim.feeBps)
    requires Solvent(b) && ExistingOrder(l, y.proposal.decisionId).None?
    ensures Solvent(CycleStep(sim, c, tol, l, b, y).1)
  {
    SnapshotCash(b, y.snapshotAt);
    var s := P.TakeSnapshot(b, y.snapshotAt).1;
    if s.Some? {
      var q := QueryOf(y, s.value);
      if q.proposal.side == Buy && Approved(c, q) > 0.0 {
        ApprovedBuyIsOfTheOne(c, b, y.snapshotAt, q);
        GrossIsItsOwn(b, y.snapshotAt, q.proposal.asset);
      }
      AloneIsAffordable(c, q, sim.feeBps);
    }
    AffordableCycleIsSolvent(sim, c, tol, l, b, y);
  }

  /** A book that starts with nothing but cash, in a world of one asset, never goes below zero when fees fit
      what that asset leaves. */
  lemma {:induction false} AloneCashNeverNegative(sim: Simulator, c: Settings, tol: real, nav: Positive, es: seq<Event>)
    requires !Diverse(c) && FeesFitAlone(c, sim.feeBps) && FreshDecisions(L.EMPTY, es)
    ensures var b := Run(sim, c, tol, (L.EMPTY, P.Opening(nav)), es).1; P.Valid(b) && OneHeld(c, b) && Solvent(b)
  {
    if es != [] {
      var front, e := es[..|es| - 1], es[|es| - 1];
      var s := Run(sim, c, tol, (L.EMPTY, P.Opening(nav)), front);
      AloneCashNeverNegative(sim, c, tol, nav, front);
      match e {
        case Traded(y) =>
          RunKeepsOthersUnlisted(sim, c, tol, (L.EMPTY, P.Opening(nav)), front, y.proposal.decisionId);
          CycleKeepsOne(sim, c, tol, s.0, s.1, y);
          AloneCycleIsSolvent(sim, c, tol, s.0, s.1, y);
        case Marked(asset, price) => MarkKeepsOne(c, s.1, asset, price);
      }
    }
  }
}
