/** The paper report's replay: marks and fills become an equity curve and FIFO round trips. */
module PaperReplay {
  import opened Common
  import opened Sorting

  datatype Lot = Lot(quantity: Positive, price: Positive, time: real, decisionId: string, fee: real)

  /** One round trip, as the report keeps it: no quantity, only notional and return. */
  datatype Trade = Trade(
    entryTime: real, exitTime: real, entryPrice: Positive, exitPrice: Positive,
    returnPct: real, notional: real, feesPaid: real, decisionId: string)

  datatype Fill = Fill(time: real, decisionId: string, side: Side, quantity: Positive, price: Positive,
                       fee: NonNegative)
  {
    function Notional(): real { Times(quantity, price) }
  }

  datatype Event = Filled(fill: Fill) | Marked(time: real, price: Positive)

  // ----- closing lots -----

  /** The pro rata part of a fee. */
  function Share(fee: real, part: real, whole: Positive): real { Times(fee, part / whole) }

  function TradeFor(lot: Lot, matched: real, price: Positive, time: real, fees: real): Trade {
    Trade(lot.time, time, lot.price, price, price / lot.price - 1.0, Times(matched, lot.price), fees, lot.decisionId)
  }

  /** What is left of a lot after a match that took its share of the entry fee. */
  function Rest(lot: Lot, matched: real, share: real): Lot
    requires matched < lot.quantity
  {
    lot.(quantity := lot.quantity - matched, fee := lot.fee - share)
  }

  /** Trades so far, lots still open, what is left to match and its share of the exit fee. `dust`
      remembers the remainders dropped as too small; the report itself keeps no such list. */
  datatype Matching = Matching(trades: seq<Trade>, lots: seq<Lot>, remaining: real, feeLeft: real, dust: seq<Lot>)

  /** One match against the oldest lot, given the two fee shares it carries. */
  function MatchWith(m: Matching, price: Positive, time: real, tol: NonNegative, entryShare: real,
                     exitShare: real): (m': Matching)
    requires m.lots != [] && m.remaining > tol
    ensures |m'.lots| < |m.lots| || (|m'.lots| == |m.lots| && m'.remaining == 0.0)
  {
    var lot := m.lots[0];
    var matched := Min(lot.quantity, m.remaining);
    var popped := matched >= lot.quantity - tol;
    Matching(
      m.trades + [TradeFor(lot, matched, price, time, entryShare + exitShare)],
      if popped then m.lots[1..] else m.lots[0 := Rest(lot, matched, entryShare)],
      m.remaining - matched,
      m.feeLeft - exitShare,
      if popped && matched < lot.quantity then m.dust + [Rest(lot, matched, entryShare)] else m.dust)
  }

  function MatchOne(m: Matching, price: Positive, time: real, tol: NonNegative): (m': Matching)
    requires m.lots != [] && m.remaining > tol
    ensures |m'.lots| < |m.lots| || (|m'.lots| == |m.lots| && m'.remaining == 0.0)
  {
    var lot := m.lots[0];
    var matched := Min(lot.quantity, m.remaining);
    MatchWith(m, price, time, tol, Share(lot.fee, matched, lot.quantity), Share(m.feeLeft, matched, m.remaining))
  }

  function CloseLots(m: Matching, price: Positive, time: real, tol: NonNegative): Matching
    decreases |m.lots|, m.remaining > tol
  {
    if m.lots == [] || m.remaining <= tol then m
    else CloseLots(MatchOne(m, price, time, tol), price, time, tol)
  }

  // ----- sums -----

  ghost function Total<T>(xs: seq<T>, f: T -> real): real {
    if xs == [] then 0.0 else Total(xs[..|xs| - 1], f) + f(xs[|xs| - 1])
  }

  lemma TotalAppend<T>(xs: seq<T>, x: T, f: T -> real)
    ensures Total(xs + [x], f) == Total(xs, f) + f(x)
  {
    assert (xs + [x])[..|xs|] == xs;
  }

  lemma {:induction false} TotalSplit<T>(xs: seq<T>, f: T -> real)
    requires xs != []
    ensures Total(xs, f) == f(xs[0]) + Total(xs[1..], f)
  {
    if |xs| > 1 {
      var n := |xs| - 1;
      TotalSplit(xs[..n], f);
      assert xs[..n][1..] == xs[1..][..n - 1];
    }
  }

  lemma TotalReplaceFirst<T>(xs: seq<T>, x: T, f: T -> real)
    requires xs != []
    ensures Total(xs[0 := x], f) == Total(xs, f) - f(xs[0]) + f(x)
  {
    TotalSplit(xs, f);
    TotalSplit(xs[0 := x], f);
    assert xs[0 := x][1..] == xs[1..];
  }

  ghost const LOT_QUANTITY := (l: Lot) => l.quantity as real
  ghost const LOT_COST := (l: Lot) => Times(l.quantity, l.price)
  ghost const LOT_FEE := (l: Lot) => l.fee
  /** A trade's gross profit, from the two fields the report keeps. */
  ghost const PROFIT := (t: Trade) => Times(t.notional, t.returnPct)
  ghost const TRADE_FEE := (t: Trade) => t.feesPaid

  // ----- what matching conserves -----

  lemma ProfitOf(matched: real, entry: real, exit: real)
    requires entry > 0.0
    ensures Times(Times(matched, entry), exit / entry - 1.0) == Times(matched, exit) - Times(matched, entry)
  {
    assert entry * (exit / entry) == exit;
    assert matched * entry * (exit / entry) == matched * (entry * (exit / entry));
  }

  lemma TimesSplit(a: real, b: real, x: real)
    ensures Times(a - b, x) == Times(a, x) - Times(b, x)
  {
  }

  lemma WholeShare(fee: real, quantity: Positive)
    ensures Share(fee, quantity, quantity) == fee
  {
    assert quantity / quantity == 1.0;
  }

  ghost function Quantity(m: Matching): real { Total(m.lots, LOT_QUANTITY) + Total(m.dust, LOT_QUANTITY) - m.remaining }

  ghost function Value(m: Matching, price: real): real {
    Total(m.trades, PROFIT) - Total(m.lots, LOT_COST) - Total(m.dust, LOT_COST) + Times(m.remaining, price)
  }

  ghost function Fees(m: Matching): real {
    Total(m.trades, TRADE_FEE) + Total(m.lots, LOT_FEE) + Total(m.dust, LOT_FEE) + m.feeLeft
  }

  /** What a match leaves of any total over open lots and dust: the lot is gone, its remainder is not. */
  lemma MatchTotals(m: Matching, price: Positive, time: real, tol: NonNegative, entryShare: real, exitShare: real,
                    g: Lot -> real)
    requires m.lots != [] && m.remaining > tol
    ensures var lot, m' := m.lots[0], MatchWith(m, price, time, tol, entryShare, exitShare);
            var matched := Min(lot.quantity, m.remaining);
            Total(m'.lots, g) + Total(m'.dust, g) == Total(m.lots, g) + Total(m.dust, g) - g(lot)
              + (if matched < lot.quantity then g(Rest(lot, matched, entryShare)) else 0.0)
  {
    var lot := m.lots[0];
    var matched := Min(lot.quantity, m.remaining);
    TotalSplit(m.lots, g);
    if matched < lot.quantity {
      TotalReplaceFirst(m.lots, Rest(lot, matched, entryShare), g);
      TotalAppend(m.dust, Rest(lot, matched, entryShare), g);
    }
  }

  lemma MatchQuantity(m: Matching, price: Positive, time: real, tol: NonNegative, entryShare: real, exitShare: real)
    requires m.lots != [] && m.remaining > tol
    ensures Quantity(MatchWith(m, price, time, tol, entryShare, exitShare)) == Quantity(m)
  {
    MatchTotals(m, price, time, tol, entryShare, exitShare, LOT_QUANTITY);
  }

  lemma MatchValue(m: Matching, price: Positive, time: real, tol: NonNegative, entryShare: real, exitShare: real)
    requires m.lots != [] && m.remaining > tol
    ensures Value(MatchWith(m, price, time, tol, entryShare, exitShare), price) == Value(m, price)
  {
    var lot := m.lots[0];
    var matched := Min(lot.quantity, m.remaining);
    TotalAppend(m.trades, TradeFor(lot, matched, price, time, entryShare + exitShare), PROFIT);
    ProfitOf(matched, lot.price, price);
    TimesSplit(m.remaining, matched, price);
    TimesSplit(lot.quantity, matched, lot.price);
    MatchTotals(m, price, time, tol, entryShare, exitShare, LOT_COST);
  }

  /** A lot matched whole must have given up its whole fee. */
  lemma MatchFees(m: Matching, price: Positive, time: real, tol: NonNegative, entryShare: real, exitShare: real)
    requires m.lots != [] && m.remaining > tol
    requires m.lots[0].quantity <= m.remaining ==> entryShare == m.lots[0].fee
    ensures Fees(MatchWith(m, price, time, tol, entryShare, exitShare)) == Fees(m)
  {
    var lot := m.lots[0];
    var matched := Min(lot.quantity, m.remaining);
    TotalAppend(m.trades, TradeFor(lot, matched, price, time, entryShare + exitShare), TRADE_FEE);
    MatchTotals(m, price, time, tol, entryShare, exitShare, LOT_FEE);
  }

  lemma MatchOneConserves(m: Matching, price: Positive, time: real, tol: NonNegative)
    requires m.lots != [] && m.remaining > tol
    ensures var m' := MatchOne(m, price, time, tol);
            Quantity(m') == Quantity(m) && Value(m', price) == Value(m, price) && Fees(m') == Fees(m)
  {
    var lot := m.lots[0];
    var matched := Min(lot.quantity, m.remaining);
    var (entryShare, exitShare) := (Share(lot.fee, matched, lot.quantity), Share(m.feeLeft, matched, m.remaining));
    WholeShare(lot.fee, lot.quantity);
    MatchQuantity(m, price, time, tol, entryShare, exitShare);
    MatchValue(m, price, time, tol, entryShare, exitShare);
    MatchFees(m, price, time, tol, entryShare, exitShare);
  }

  /** The exit fee is spread pro rata: what is left of it is in proportion to what is left to match. */
  lemma MatchOneShare(m: Matching, price: Positive, time: real, tol: NonNegative, quantity: real, fee: real)
    requires m.lots != [] && m.remaining > tol && Times(m.feeLeft, quantity) == Times(fee, m.remaining)
    ensures var m' := MatchOne(m, price, time, tol); Times(m'.feeLeft, quantity) == Times(fee, m'.remaining)
  {
    var matched := Min(m.lots[0].quantity, m.remaining);
    ShareLeft(m.feeLeft, m.remaining, matched, quantity, fee);
  }

  lemma ShareLeft(feeLeft: real, remaining: real, matched: real, quantity: real, fee: real)
    requires remaining > 0.0 && Times(feeLeft, quantity) == Times(fee, remaining)
    ensures Times(feeLeft - Share(feeLeft, matched, remaining), quantity) == Times(fee, remaining - matched)
  {
    var k := matched / remaining;
    assert k * remaining == matched;
    assert Times(feeLeft - Times(feeLeft, k), quantity) == feeLeft * quantity - k * (feeLeft * quantity);
    assert Times(fee, remaining - matched) == fee * remaining - k * (fee * remaining);
  }

  /** What one sell leaves: nothing negative, dust only when fully matched and within the tolerance,
      and more than the tolerance unmatched only when the lots ran out. */
  ghost predicate Settled(m: Matching, before: seq<Lot>, tol: real) {
    && m.remaining >= 0.0
    && (m.remaining > tol ==> m.lots == [])
    && before <= m.dust && |m.dust| <= |before| + 1
    && (|m.dust| == |before| + 1 ==> m.remaining == 0.0 && m.dust[|before|].quantity <= tol)
  }

  /** Matching conserves quantity, value and fees, and spreads the exit fee pro rata. */
  lemma {:induction false} CloseConserves(m: Matching, price: Positive, time: real, tol: NonNegative, quantity: real,
                                          fee: real)
    requires m.remaining >= 0.0 && Times(m.feeLeft, quantity) == Times(fee, m.remaining)
    ensures var m' := CloseLots(m, price, time, tol);
            && Quantity(m') == Quantity(m) && Value(m', price) == Value(m, price) && Fees(m') == Fees(m)
            && Times(m'.feeLeft, quantity) == Times(fee, m'.remaining)
    decreases |m.lots|, m.remaining > tol
  {
    if m.lots != [] && m.remaining > tol {
      MatchOneConserves(m, price, time, tol);
      MatchOneShare(m, price, time, tol, quantity, fee);
      CloseConserves(MatchOne(m, price, time, tol), price, time, tol, quantity, fee);
    }
  }

  lemma {:induction false} CloseSettles(m: Matching, price: Positive, time: real, tol: NonNegative)
    requires m.remaining >= 0.0
    ensures Settled(CloseLots(m, price, time, tol), m.dust, tol)
    decreases |m.lots|, m.remaining > tol
  {
    if m.lots != [] && m.remaining > tol {
      var m' := MatchOne(m, price, time, tol);
      if m'.dust == m.dust {
        CloseSettles(m', price, time, tol);
      } else {
        assert m'.remaining == 0.0;
        assert CloseLots(m', price, time, tol) == m';
      }
    }
  }

  // ----- the replay -----

  /** Part of a sell no lot covered, with the share of its fee no trade carries. */
  datatype Slice = Slice(quantity: real, price: Positive, fee: real)

  /** The replay's variables. `dust` and `unmatched` record what the report lets go of. */
  datatype State = State(
    cash: real, quantity: real, lots: seq<Lot>, trades: seq<Trade>, fees: real, turnover: real, fills: nat,
    lastPrice: real, curve: seq<(real, real)>, dust: seq<Lot>, unmatched: seq<Slice>)

  function Opening(start: Positive, firstPrice: real): State {
    State(start, 0.0, [], [], 0.0, 0.0, 0, firstPrice, [], [], [])
  }

  /** A fill's own fee when it has one, the fallback rate otherwise. */
  function FeeOf(f: Fill, feeBps: real): real {
    if f.fee > 0.0 then f.fee else f.Notional() * feeBps / 10000.0
  }

  function Matched(s: State, f: Fill, fee: real, tol: NonNegative): Matching {
    CloseLots(Matching(s.trades, s.lots, f.quantity, fee, s.dust), f.price, f.time, tol)
  }

  /** One fill with its fee: a buy opens a lot, a sell closes lots from the front. */
  function Taken(s: State, f: Fill, fee: real, tol: NonNegative): State {
    var s1 := s.(fills := s.fills + 1, fees := s.fees + fee, turnover := s.turnover + f.Notional(),
                 lastPrice := f.price);
    if f.side == Buy then
      s1.(cash := s.cash - fee - f.Notional(), quantity := s.quantity + f.quantity,
          lots := s.lots + [Lot(f.quantity, f.price, f.time, f.decisionId, fee)])
    else
      var m := Matched(s, f, fee, tol);
      s1.(cash := s.cash - fee + f.Notional(), quantity := s.quantity - f.quantity,
          trades := m.trades, lots := m.lots, dust := m.dust,
          unmatched := s.unmatched + [Slice(m.remaining, f.price, m.feeLeft)])
  }

  function Step(s: State, e: Event, feeBps: real, tol: NonNegative): State {
    match e
    case Marked(time, price) =>
      s.(lastPrice := price, curve := s.curve + [(time, s.cash + Times(s.quantity, price))])
    case Filled(f) => Taken(s, f, FeeOf(f, feeBps), tol)
  }

  function Replay(s: State, es: seq<Event>, feeBps: real, tol: NonNegative): State
    decreases |es|
  {
    if es == [] then s else Replay(Step(s, es[0], feeBps, tol), es[1..], feeBps, tol)
  }

  /** Unclosed lots are closed at the last price, without a fee, so they show in the trade list. */
  ghost function ClosedOut(s: State, time: real, tol: NonNegative): Matching {
    var m := Matching(s.trades, s.lots, Total(s.lots, LOT_QUANTITY), 0.0, s.dust);
    if s.lastPrice > 0.0 then CloseLots(m, s.lastPrice, time, tol) else m
  }

  // ----- conservation over every replay -----

  ghost const SLICE_QUANTITY := (x: Slice) => x.quantity
  ghost const SLICE_VALUE := (x: Slice) => Times(x.quantity, x.price)
  ghost const SLICE_FEE := (x: Slice) => x.fee

  /** Quantity, cash and fees, accounted for to the last lot, trade, dropped remainder and unmatched sell. */
  ghost predicate Balanced(s: State, start: real) {
    && s.quantity == Total(s.lots, LOT_QUANTITY) + Total(s.dust, LOT_QUANTITY) - Total(s.unmatched, SLICE_QUANTITY)
    && s.cash == start + Total(s.trades, PROFIT) - s.fees - Total(s.lots, LOT_COST) - Total(s.dust, LOT_COST)
                 + Total(s.unmatched, SLICE_VALUE)
    && s.fees == Total(s.trades, TRADE_FEE) + Total(s.lots, LOT_FEE) + Total(s.dust, LOT_FEE)
        + Total(s.unmatched, SLICE_FEE)
  }

  lemma BuyBalances(s: State, f: Fill, fee: real, tol: NonNegative, start: real)
    requires Balanced(s, start) && f.side == Buy
    ensures Balanced(Taken(s, f, fee, tol), start)
  {
    var lot := Lot(f.quantity, f.price, f.time, f.decisionId, fee);
    TotalAppend(s.lots, lot, LOT_QUANTITY);
    TotalAppend(s.lots, lot, LOT_COST);
    TotalAppend(s.lots, lot, LOT_FEE);
  }

  lemma SellBalances(s: State, f: Fill, fee: real, tol: NonNegative, start: real)
    requires Balanced(s, start) && f.side == Sell
    ensures Balanced(Taken(s, f, fee, tol), start)
  {
    var m0 := Matching(s.trades, s.lots, f.quantity, fee, s.dust);
    var m := Matched(s, f, fee, tol);
    CloseConserves(m0, f.price, f.time, tol, f.quantity, fee);
    var slice := Slice(m.remaining, f.price, m.feeLeft);
    TotalAppend(s.unmatched, slice, SLICE_QUANTITY);
    TotalAppend(s.unmatched, slice, SLICE_VALUE);
    TotalAppend(s.unmatched, slice, SLICE_FEE);
  }

  lemma FillBalances(s: State, f: Fill, fee: real, tol: NonNegative, start: real)
    requires Balanced(s, start)
    ensures Balanced(Taken(s, f, fee, tol), start)
  {
    if f.side == Buy {
      BuyBalances(s, f, fee, tol, start);
    } else {
      SellBalances(s, f, fee, tol, start);
    }
  }

  lemma {:induction false} ReplayBalances(s: State, es: seq<Event>, feeBps: real, tol: NonNegative, start: real)
    requires Balanced(s, start)
    ensures Balanced(Replay(s, es, feeBps, tol), start)
    decreases |es|
  {
    if es != [] {
      if es[0].Filled? {
        FillBalances(s, es[0].fill, FeeOf(es[0].fill, feeBps), tol, start);
      }
      ReplayBalances(Step(s, es[0], feeBps, tol), es[1..], feeBps, tol, start);
    }
  }

  lemma ClosedOutConserves(s: State, time: real, tol: NonNegative)
    requires s.lastPrice > 0.0
    ensures var m := ClosedOut(s, time, tol);
            && m.remaining == Total(m.lots, LOT_QUANTITY) + Total(m.dust, LOT_QUANTITY) - Total(s.dust, LOT_QUANTITY)
            && Value(m, s.lastPrice) == Total(s.trades, PROFIT) - Total(s.lots, LOT_COST) - Total(s.dust, LOT_COST)
                                        + Times(Total(s.lots, LOT_QUANTITY), s.lastPrice)
            && Fees(m) == Total(s.trades, TRADE_FEE) + Total(s.lots, LOT_FEE) + Total(s.dust, LOT_FEE)
            && Settled(m, s.dust, tol)
  {
    LotsNonNegative(s.lots);
    var m0 := Matching(s.trades, s.lots, Total(s.lots, LOT_QUANTITY), 0.0, s.dust);
    CloseConserves(m0, s.lastPrice, time, tol, 0.0, 0.0);
    CloseSettles(m0, s.lastPrice, time, tol);
  }

  lemma {:induction false} LotsNonNegative(lots: seq<Lot>)
    ensures Total(lots, LOT_QUANTITY) >= 0.0
    ensures lots != [] ==> Total(lots, LOT_QUANTITY) > 0.0
  {
    if lots != [] {
      LotsNonNegative(lots[..|lots| - 1]);
    }
  }

  /** The exact law, for every tolerance, fee rate and sequence of events: the equity change is the
      profit of the trades less fees, plus what the dropped remainders and the unmatched sells are
      worth at the last price, plus what the final close could not match. */
  lemma ReplayValueExactly(start: Positive, firstPrice: real, es: seq<Event>, feeBps: real, tol: NonNegative,
                           time: real)
    requires Replay(Opening(start, firstPrice), es, feeBps, tol).lastPrice > 0.0
    ensures var s := Replay(Opening(start, firstPrice), es, feeBps, tol); var m := ClosedOut(s, time, tol);
            s.cash + Times(s.quantity, s.lastPrice) - start ==
            Total(m.trades, PROFIT) - s.fees
            + (Times(Total(s.dust, LOT_QUANTITY), s.lastPrice) - Total(m.dust, LOT_COST))
            + (Total(s.unmatched, SLICE_VALUE) - Times(Total(s.unmatched, SLICE_QUANTITY), s.lastPrice))
            + (Times(m.remaining, s.lastPrice) - Total(m.lots, LOT_COST))
  {
    var s := Replay(Opening(start, firstPrice), es, feeBps, tol);
    ReplayBalances(Opening(start, firstPrice), es, feeBps, tol, start);
    ClosedOutConserves(s, time, tol);
    TimesSum(Total(s.lots, LOT_QUANTITY), Total(s.dust, LOT_QUANTITY), Total(s.unmatched, SLICE_QUANTITY), s.lastPrice);
  }

  lemma TimesSum(a: real, b: real, c: real, x: real)
    ensures Times(a + b - c, x) == Times(a, x) + Times(b, x) - Times(c, x)
  {
  }

  // ----- no oversell -----

  /** No sell of the run is larger than the quantity held when it happens. */
  ghost predicate NeverOversells(s: State, es: seq<Event>, feeBps: real, tol: NonNegative)
    decreases |es|
  {
    es == [] ||
    (&& (es[0].Filled? && es[0].fill.side == Sell ==> es[0].fill.quantity <= s.quantity)
     && NeverOversells(Step(s, es[0], feeBps, tol), es[1..], feeBps, tol))
  }

  /** Nothing dropped, nothing unmatched. */
  ghost predicate Exact(s: State) {
    && s.dust == []
    && (forall i :: 0 <= i < |s.unmatched| ==> s.unmatched[i].quantity == 0.0 && s.unmatched[i].fee == 0.0)
  }

  lemma {:induction false} NoSlices(xs: seq<Slice>)
    requires forall i :: 0 <= i < |xs| ==> xs[i].quantity == 0.0 && xs[i].fee == 0.0
    ensures Total(xs, SLICE_QUANTITY) == 0.0 && Total(xs, SLICE_VALUE) == 0.0 && Total(xs, SLICE_FEE) == 0.0
  {
    if xs != [] {
      NoSlices(xs[..|xs| - 1]);
    }
  }

  /** Without tolerance, a sell within the lots is matched to the last unit and its fee with it. */
  lemma ExactSell(s: State, f: Fill, fee: real)
    requires s.dust == [] && f.quantity <= Total(s.lots, LOT_QUANTITY)
    ensures var m := Matched(s, f, fee, 0.0); m.dust == [] && m.remaining == 0.0 && m.feeLeft == 0.0
  {
    var m0 := Matching(s.trades, s.lots, f.quantity, fee, s.dust);
    var m := Matched(s, f, fee, 0.0);
    CloseConserves(m0, f.price, f.time, 0.0, f.quantity, fee);
    CloseSettles(m0, f.price, f.time, 0.0);
    assert m.remaining == 0.0;
    assert Times(m.feeLeft, f.quantity) == 0.0;
    ZeroFactor(m.feeLeft, f.quantity);
  }

  lemma ZeroFactor(a: real, b: real)
    requires b > 0.0 && Times(a, b) == 0.0
    ensures a == 0.0
  {
  }

  /** Without tolerance, a step that does not oversell keeps everything matched to the last unit. */
  lemma StepStaysExact(s: State, e: Event, feeBps: real, start: real)
    requires Balanced(s, start) && Exact(s)
    requires e.Filled? && e.fill.side == Sell ==> e.fill.quantity <= s.quantity
    ensures Balanced(Step(s, e, feeBps, 0.0), start) && Exact(Step(s, e, feeBps, 0.0))
    ensures e.Filled? && e.fill.side == Sell ==> e.fill.quantity <= Total(s.lots, LOT_QUANTITY)
  {
    if e.Filled? {
      FillBalances(s, e.fill, FeeOf(e.fill, feeBps), 0.0, start);
      if e.fill.side == Sell {
        NoSlices(s.unmatched);
        ExactSell(s, e.fill, FeeOf(e.fill, feeBps));
      }
    }
  }

  lemma {:induction false} ReplayStaysExact(s: State, es: seq<Event>, feeBps: real, start: real)
    requires Balanced(s, start) && Exact(s) && NeverOversells(s, es, feeBps, 0.0)
    ensures Exact(Replay(s, es, feeBps, 0.0))
    decreases |es|
  {
    if es != [] {
      StepStaysExact(s, es[0], feeBps, start);
      ReplayStaysExact(Step(s, es[0], feeBps, 0.0), es[1..], feeBps, start);
    }
  }

  lemma ExactClose(s: State, time: real)
    requires s.dust == [] && s.lastPrice > 0.0
    ensures var m := ClosedOut(s, time, 0.0); m.dust == [] && m.lots == [] && m.remaining == 0.0
  {
    ClosedOutConserves(s, time, 0.0);
    LotsNonNegative(ClosedOut(s, time, 0.0).lots);
  }

  /** FIFO replay conserves value and fees: without tolerance, and with no sell above what is held,
      final equity less the starting one is exactly the trades' profit less all fees, and the
      trades carry every fee. */
  lemma ReplayConserves(start: Positive, firstPrice: real, es: seq<Event>, feeBps: real, time: real)
    requires Replay(Opening(start, firstPrice), es, feeBps, 0.0).lastPrice > 0.0
    requires NeverOversells(Opening(start, firstPrice), es, feeBps, 0.0)
    ensures var s := Replay(Opening(start, firstPrice), es, feeBps, 0.0); var trades := ClosedOut(s, time, 0.0).trades;
            && s.cash + Times(s.quantity, s.lastPrice) - start == Total(trades, PROFIT) - s.fees
            && Total(trades, TRADE_FEE) == s.fees
  {
    var s := Replay(Opening(start, firstPrice), es, feeBps, 0.0);
    ReplayBalances(Opening(start, firstPrice), es, feeBps, 0.0, start);
    ReplayStaysExact(Opening(start, firstPrice), es, feeBps, start);
    ReplayValueExactly(start, firstPrice, es, feeBps, 0.0, time);
    ClosedOutConserves(s, time, 0.0);
    ExactClose(s, time);
    NoSlices(s.unmatched);
    FeeLeftIsZero(s, time);
  }

  lemma FeeLeftIsZero(s: State, time: real)
    requires s.lastPrice > 0.0
    ensures ClosedOut(s, time, 0.0).feeLeft == 0.0
  {
    LotsNonNegative(s.lots);
    CloseConserves(Matching(s.trades, s.lots, Total(s.lots, LOT_QUANTITY), 0.0, s.dust), s.lastPrice, time, 0.0, 1.0,
                   0.0);
  }

  // ----- drift with tolerance -----

  ghost function Sells(es: seq<Event>): nat {
    if es == [] then 0 else (if es[0].Filled? && es[0].fill.side == Sell then 1 else 0) + Sells(es[1..])
  }

  ghost function Drift(s: State): real { s.quantity - Total(s.lots, LOT_QUANTITY) }

  lemma BuyDrift(s: State, f: Fill, fee: real, tol: NonNegative)
    requires f.side == Buy
    ensures Drift(Taken(s, f, fee, tol)) == Drift(s)
  {
    TotalAppend(s.lots, Lot(f.quantity, f.price, f.time, f.decisionId, fee), LOT_QUANTITY);
  }

  lemma SellDrift(s: State, f: Fill, fee: real, tol: NonNegative, bound: real)
    requires f.side == Sell && f.quantity <= s.quantity && -bound <= Drift(s) <= bound
    ensures -(bound + tol) <= Drift(Taken(s, f, fee, tol)) <= bound + tol
  {
    var m0 := Matching(s.trades, s.lots, f.quantity, fee, s.dust);
    var m := Matched(s, f, fee, tol);
    CloseConserves(m0, f.price, f.time, tol, f.quantity, fee);
    CloseSettles(m0, f.price, f.time, tol);
    var d := Total(m.dust, LOT_QUANTITY) - Total(s.dust, LOT_QUANTITY);
    assert 0.0 <= d <= tol && (m.remaining > 0.0 ==> d == 0.0) by {
      if |m.dust| == |s.dust| + 1 {
        assert m.dust == s.dust + [m.dust[|s.dust|]];
        TotalAppend(s.dust, m.dust[|s.dust|], LOT_QUANTITY);
      } else {
        assert m.dust == s.dust;
      }
    }
    assert Drift(Taken(s, f, fee, tol)) == Drift(s) + d - m.remaining;
  }

  lemma OneMore(n: nat, tol: real)
    ensures Times((n + 1) as real, tol) == tol + Times(n as real, tol)
  {
  }

  /** With a tolerance, the open lots differ from the held quantity by at most the tolerance per sell. */
  lemma {:induction false} LotsTrackHoldings(s: State, es: seq<Event>, feeBps: real, tol: NonNegative, bound: real)
    requires NeverOversells(s, es, feeBps, tol) && -bound <= Drift(s) <= bound
    ensures var b := bound + Times(Sells(es) as real, tol); -b <= Drift(Replay(s, es, feeBps, tol)) <= b
    decreases |es|
  {
    if es != [] {
      var s' := Step(s, es[0], feeBps, tol);
      if es[0].Filled? && es[0].fill.side == Sell {
        SellDrift(s, es[0].fill, FeeOf(es[0].fill, feeBps), tol, bound);
        LotsTrackHoldings(s', es[1..], feeBps, tol, bound + tol);
        OneMore(Sells(es[1..]), tol);
      } else {
        if es[0].Filled? {
          BuyDrift(s, es[0].fill, FeeOf(es[0].fill, feeBps), tol);
        }
        LotsTrackHoldings(s', es[1..], feeBps, tol, bound);
      }
    }
  }

  // ----- the report's own loops -----

  datatype PaperRun = PaperRun(
    curve: seq<(real, real)>, trades: seq<Trade>, fills: nat, fees: real, turnover: real, openQuantity: real)

  /** Fills before marks at the same instant. */
  function Before(a: Event, b: Event): bool {
    var (ta, tb) := (TimeOf(a), TimeOf(b));
    ta < tb || (ta == tb && (a.Filled? || b.Marked?))
  }

  function TimeOf(e: Event): real { if e.Filled? then e.fill.time else e.time }

  /** The replay sees every fill and mark once, in time order, fills first at a tie. */
  lemma EventsInOrder(marks: seq<(real, Positive)>, fills: seq<Fill>)
    ensures var es := Sort(Events(marks, fills), Before);
            Sorted(es, Before) && multiset(es) == multiset(Events(marks, fills))
  {
    assert Sorting.Total(Before);
    SortSorts(Events(marks, fills), Before);
  }

  method CloseLotsLoop(trades: seq<Trade>, lots: seq<Lot>, quantity: real, fee: real, price: Positive, time: real,
                       tol: NonNegative, ghost dust: seq<Lot>)
    returns (trades': seq<Trade>, lots': seq<Lot>)
    ensures var m := CloseLots(Matching(trades, lots, quantity, fee, dust), price, time, tol);
            trades' == m.trades && lots' == m.lots
  {
    trades', lots' := trades, lots;
    var remaining, feeLeft := quantity, fee;
    ghost var m := Matching(trades, lots, quantity, fee, dust);
    while remaining > tol && lots' != []
      invariant m.trades == trades' && m.lots == lots' && m.remaining == remaining && m.feeLeft == feeLeft
      invariant CloseLots(Matching(trades, lots, quantity, fee, dust), price, time, tol) ==
          CloseLots(m, price, time, tol)
      decreases |lots'|, remaining > tol
    {
      m := MatchOne(m, price, time, tol);
      var lot := lots'[0];
      var matched := Min(lot.quantity, remaining);
      var (entryShare, exitShare) := (Share(lot.fee, matched, lot.quantity), Share(feeLeft, matched, remaining));
      feeLeft := feeLeft - exitShare;
      trades' := trades' + [TradeFor(lot, matched, price, time, entryShare + exitShare)];
      remaining := remaining - matched;
      if matched >= lot.quantity - tol {
        lots' := lots'[1..];
      } else {
        lots' := lots'[0 := Rest(lot, matched, entryShare)];
      }
    }
  }

  method LotTotal(lots: seq<Lot>) returns (q: real)
    ensures q == Total(lots, LOT_QUANTITY)
  {
    q := 0.0;
    for i := 0 to |lots|
      invariant q == Total(lots[..i], LOT_QUANTITY)
    {
      TotalAppend(lots[..i], lots[i], LOT_QUANTITY);
      assert lots[..i + 1] == lots[..i] + [lots[i]];
      q := q + lots[i].quantity;
    }
    assert lots[..|lots|] == lots;
  }

  function FirstPrice(marks: seq<(real, Positive)>): real {
    if marks == [] then 0.0 else marks[0].1
  }

  /** The last mark's time, or the newest lot's when nothing was marked. */
  function ClosingTime(s: State): real {
    if s.curve != [] then s.curve[|s.curve| - 1].0 else if s.lots != [] then s.lots[|s.lots| - 1].time else 0.0
  }

  /** What is reported of a replay once whatever is open has been closed at the last price. */
  ghost function Report(s: State, tol: NonNegative): PaperRun {
    PaperRun(s.curve, if s.lots == [] then s.trades else ClosedOut(s, ClosingTime(s), tol).trades,
             s.fills, s.fees, s.turnover, Max(s.quantity, 0.0))
  }

  method CloseOpen(trades: seq<Trade>, lots: seq<Lot>, lastPrice: real, curve: seq<(real, real)>, tol: NonNegative,
                   ghost s: State)
    returns (closed: seq<Trade>)
    requires trades == s.trades && lots == s.lots && lastPrice == s.lastPrice && curve == s.curve
    ensures closed == Report(s, tol).trades
  {
    closed := trades;
    if lots != [] && lastPrice > 0.0 {
      var time := if curve == [] then lots[|lots| - 1].time else curve[|curve| - 1].0;
      var q := LotTotal(lots);
      var left;
      closed, left := CloseLotsLoop(trades, lots, q, 0.0, lastPrice, time, tol, s.dust);
    }
  }

  /** The whole report: sort, replay, close what is open. A non-positive start is refused. */
  method Reconstruct(marks: seq<(real, Positive)>, fills: seq<Fill>, start: real, feeBps: real, tol: NonNegative)
    returns (run: Option<PaperRun>)
    ensures run.None? <==> start <= 0.0
    ensures run.Some? ==>
              var events := Sort(Events(marks, fills), Before);
              run.value == Report(Replay(Opening(start, FirstPrice(marks)), events, feeBps, tol), tol)
  {
    if start <= 0.0 {
      return None;
    }
    var cash, quantity, lots, trades := start, 0.0, [], [];
    var fees, turnover, count, curve := 0.0, 0.0, 0, [];
    var lastPrice := FirstPrice(marks);
    var events := Sort(Events(marks, fills), Before);
    ghost var s := Opening(start, lastPrice);
    ghost var s0 := s;
    var i := 0;
    while i < |events|
      invariant 0 <= i <= |events|
      invariant Replay(s0, events, feeBps, tol) == Replay(s, events[i..], feeBps, tol)
      invariant s == State(cash, quantity, lots, trades, fees, turnover, count, lastPrice, curve, s.dust, s.unmatched)
    {
      var e := events[i];
      ghost var next := Step(s, e, feeBps, tol);
      if e.Filled? {
        var f := e.fill;
        var fee := FeeOf(f, feeBps);
        count, fees, turnover, lastPrice := count + 1, fees + fee, turnover + f.Notional(), f.price;
        if f.side.Buy? {
          cash, quantity := cash - fee - f.Notional(), quantity + f.quantity;
          lots := lots + [Lot(f.quantity, f.price, f.time, f.decisionId, fee)];
        } else {
          cash, quantity := cash - fee + f.Notional(), quantity - f.quantity;
          trades, lots := CloseLotsLoop(trades, lots, f.quantity, fee, f.price, f.time, tol, s.dust);
        }
      } else {
        lastPrice := e.price;
        curve := curve + [(e.time, cash + Times(quantity, e.price))];
      }
      assert events[i..][1..] == events[i + 1..];
      s := next;
      i := i + 1;
    }
    trades := CloseOpen(trades, lots, lastPrice, curve, tol, s);
    run := Some(PaperRun(curve, trades, count, fees, turnover, Max(quantity, 0.0)));
  }

  function Events(marks: seq<(real, Positive)>, fills: seq<Fill>): seq<Event> {
    seq(|fills|, i requires 0 <= i < |fills| => Filled(fills[i]))
    + seq(|marks|, i requires 0 <= i < |marks| => Marked(marks[i].0, marks[i].1))
  }
}
