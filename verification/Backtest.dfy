/** The research backtest engine, and the walk-forward loop around it. */
module Backtest {
  import opened Common

  datatype Candle = Candle(openedAt: real, open: Positive, close: Positive, volume: NonNegative)

  datatype Decision = Decision(weight: real, regime: string, ids: seq<string>)

  /** `decide` sees the candles so far; `costBps` prices one fill of a notional on a candle. */
  datatype Model = Model(decide: seq<Candle> -> Decision, costBps: (Candle, real) -> real, threshold: real)

  datatype Trade = Trade(
    entryTime: real, exitTime: real, entryPrice: Positive, exitPrice: Positive, side: Side,
    returnPct: real, regime: string, ids: seq<string>, notional: real, feesPaid: real)

  /** The entry of an open position. */
  datatype Entry = Entry(price: Positive, time: real, regime: string, ids: seq<string>, notional: real, fees: real)

  /** The loop's variables. `position` is the weight held; `entry` is meaningful while it is not zero. */
  datatype State = State(
    equity: real, position: real, entry: Entry, trades: seq<Trade>, fees: real, turnover: real,
    peak: real, maxDrawdown: real, barReturns: seq<real>, openings: nat)

  const FLOOR := 0.000000001

  function Friction(m: Model, c: Candle, notional: real): real { m.costBps(c, notional) / 10000.0 }

  /** What closing multiplies equity by: one plus the move less friction, floored above zero. */
  function CloseFactor(position: real, entryPrice: Positive, exitPrice: Positive, friction: real): (k: Positive) {
    Max(1.0 + position * (exitPrice / entryPrice - 1.0) - friction, FLOOR)
  }

  function ClosePosition(m: Model, s: State, c: Candle, price: Positive): State {
    var friction := Friction(m, c, s.equity);
    var equity := Times(s.equity, CloseFactor(s.position, s.entry.price, price, friction));
    var fees := Times(s.equity, friction);
    s.(equity := equity, fees := s.fees + fees, turnover := s.turnover + s.equity,
       trades := s.trades + [
         Trade(s.entry.time, c.openedAt, s.entry.price, price, if s.position > 0.0 then Buy else Sell,
               if s.entry.notional > 0.0 then Over(equity, s.entry.notional) - 1.0 else 0.0,
               s.entry.regime, s.entry.ids, s.entry.notional, s.entry.fees + fees)])
  }

  function OpenPosition(m: Model, s: State, c: Candle, price: Positive, d: Decision): State {
    var friction := Friction(m, c, s.equity);
    var fees := Times(s.equity, friction);
    s.(equity := Times(s.equity, 1.0 - friction), fees := s.fees + fees, turnover := s.turnover + s.equity,
       position := d.weight, entry := Entry(price, c.openedAt, d.regime, d.ids, s.equity, fees),
       openings := s.openings + 1)
  }

  function Rebalance(m: Model, s: State, c: Candle, d: Decision): State {
    if Abs(d.weight - s.position) <= m.threshold then s
    else
      var s1 := if s.position != 0.0 then ClosePosition(m, s, c, c.open) else s;
      if d.weight != 0.0 then OpenPosition(m, s1, c, c.open, d) else s1.(position := 0.0)
  }

  /** The running peak and the worst decline from it, after a new equity point. */
  function Watermark(s: State): State {
    var peak := Max(s.peak, s.equity);
    s.(peak := peak, maxDrawdown := if peak == 0.0 then s.maxDrawdown
       else Max(s.maxDrawdown, 1.0 - Over(s.equity, peak)))
  }

  function Bar(m: Model, s: State, window: seq<Candle>, next: Candle): State {
    var s1 := Rebalance(m, s, next, m.decide(window));
    Watermark(s1.(barReturns := s1.barReturns + [if s.equity == 0.0 then 0.0 else Over(s1.equity, s.equity) - 1.0]))
  }

  function Opening(start: Positive, c: Candle): State {
    State(start, 0.0, Entry(1.0, c.openedAt, "range", [], 0.0, 0.0), [], 0.0, 0.0, start, 0.0, [], 0)
  }

  /** The state after deciding on every bar from `warmup` up to, not including, bar `i`. */
  function After(m: Model, start: Positive, cs: seq<Candle>, warmup: nat, i: nat): State
    requires warmup <= i < |cs|
    decreases i
  {
    if i == warmup then Opening(start, cs[warmup])
    else Bar(m, After(m, start, cs, warmup, i - 1), cs[..i], cs[i])
  }

  lemma AfterOneMore(m: Model, start: Positive, cs: seq<Candle>, warmup: nat, i: nat, s: State)
    requires warmup <= i < |cs| - 1
    requires s == Bar(m, After(m, start, cs, warmup, i), cs[..i + 1], cs[i + 1])
    ensures s == After(m, start, cs, warmup, i + 1)
  {
  }

  /** Whatever is open at the end is closed on the last candle. */
  function Final(m: Model, start: Positive, cs: seq<Candle>, warmup: nat): State
    requires warmup < |cs|
  {
    var s := After(m, start, cs, warmup, |cs| - 1);
    if s.position != 0.0 then Watermark(ClosePosition(m, s, cs[|cs| - 1], cs[|cs| - 1].close)) else s
  }

  // ----- accounting -----

  ghost function Product(ts: seq<Trade>): real {
    if ts == [] then 1.0 else Times(Product(ts[..|ts| - 1]), 1.0 + ts[|ts| - 1].returnPct)
  }

  ghost function TradeFees(ts: seq<Trade>): real {
    if ts == [] then 0.0 else TradeFees(ts[..|ts| - 1]) + ts[|ts| - 1].feesPaid
  }

  /** Every fill costs less than the whole notional. */
  ghost predicate Affordable(m: Model) {
    forall c, n :: Friction(m, c, n) < 1.0
  }

  /** Equity so far is the start compounded through the closed trades; an open position stands on
      the equity it was opened with, and its fee is the only one no trade carries yet. */
  ghost predicate Booked(s: State, start: real) {
    && s.equity > 0.0 && start > 0.0
    && (s.position == 0.0 ==>
          s.equity == Times(start, Product(s.trades)) && s.fees == TradeFees(s.trades) && s.openings == |s.trades|)
    && (s.position != 0.0 ==>
          && s.entry.notional > 0.0 && s.entry.notional == Times(start, Product(s.trades))
          && s.fees == TradeFees(s.trades) + s.entry.fees && s.openings == |s.trades| + 1)
  }

  lemma Compound(start: real, product: real, notional: real, equity: real)
    requires notional > 0.0 && notional == Times(start, product)
    ensures equity == Times(start, Times(product, 1.0 + (Over(equity, notional) - 1.0)))
  {
    var r := Over(equity, notional);
    assert notional * r == equity;
    assert start * (product * r) == start * product * r;
  }

  lemma CloseBooks(m: Model, s: State, c: Candle, price: Positive, start: real)
    requires Booked(s, start) && s.position != 0.0
    ensures Booked(ClosePosition(m, s, c, price).(position := 0.0), start)
    ensures ClosePosition(m, s, c, price).equity > 0.0
  {
    var s' := ClosePosition(m, s, c, price);
    ProductPositive(s.equity, CloseFactor(s.position, s.entry.price, price, Friction(m, c, s.equity)));
    assert s'.trades[..|s.trades|] == s.trades;
    Compound(start, Product(s.trades), s.entry.notional, s'.equity);
  }

  lemma OpenBooks(m: Model, s: State, c: Candle, price: Positive, d: Decision, start: real)
    requires Affordable(m) && Booked(s.(position := 0.0), start) && d.weight != 0.0
    ensures Booked(OpenPosition(m, s, c, price, d), start)
  {
    var friction := Friction(m, c, s.equity);
    ProductPositive(s.equity, 1.0 - friction);
  }

  lemma RebalanceBooks(m: Model, s: State, c: Candle, d: Decision, start: real)
    requires Affordable(m) && Booked(s, start)
    ensures Booked(Rebalance(m, s, c, d), start)
  {
    var s1 := if s.position != 0.0 then ClosePosition(m, s, c, c.open) else s;
    if s.position != 0.0 {
      CloseBooks(m, s, c, c.open, start);
    } else {
      assert s.(position := 0.0) == s;
    }
    if d.weight != 0.0 {
      OpenBooks(m, s1, c, c.open, d, start);
    }
  }

  lemma {:induction false} AfterBooks(m: Model, start: Positive, cs: seq<Candle>, warmup: nat, i: nat)
    requires Affordable(m) && warmup <= i < |cs|
    ensures Booked(After(m, start, cs, warmup, i), start)
    decreases i
  {
    if i > warmup {
      AfterBooks(m, start, cs, warmup, i - 1);
      RebalanceBooks(m, After(m, start, cs, warmup, i - 1), cs[i], m.decide(cs[..i]), start);
    }
  }

  /** Backtest accounting: equity stays positive, ending over starting equity is the product of one
      plus each trade's return, every fee is on a trade, and every opened position is closed once. */
  lemma AccountingIsExact(m: Model, start: Positive, cs: seq<Candle>, warmup: nat)
    requires Affordable(m) && warmup < |cs|
    ensures var s := Final(m, start, cs, warmup);
            && s.equity > 0.0
            && s.equity == Times(start, Product(s.trades))
            && s.fees == TradeFees(s.trades)
            && s.openings == |s.trades|
  {
    AfterBooks(m, start, cs, warmup, |cs| - 1);
    var s := After(m, start, cs, warmup, |cs| - 1);
    if s.position != 0.0 {
      CloseBooks(m, s, cs[|cs| - 1], cs[|cs| - 1].close, start);
    }
  }

  // ----- drawdown -----

  /** The equity points the drawdown is taken over: the start and one per bar. */
  ghost function Points(m: Model, start: Positive, cs: seq<Candle>, warmup: nat, i: nat): seq<real>
    requires warmup <= i < |cs|
    decreases i
  {
    if i == warmup then [start]
    else Points(m, start, cs, warmup, i - 1) + [After(m, start, cs, warmup, i).equity]
  }

  ghost predicate AllPositive(es: seq<real>) { forall i :: 0 <= i < |es| ==> es[i] > 0.0 }

  ghost function Decline(es: seq<real>, i: nat, j: nat): real
    requires i < |es| && j < |es| && AllPositive(es)
  {
    1.0 - Over(es[j], es[i])
  }

  /** `d` is the largest decline from any point to the same or a later one. */
  ghost predicate IsMaxDrawdown(es: seq<real>, d: real)
    requires AllPositive(es)
  {
    && (forall i: nat, j: nat :: i <= j < |es| ==> Decline(es, i, j) <= d)
    && (exists i: nat, j: nat :: i <= j < |es| && Decline(es, i, j) == d)
  }

  ghost predicate IsPeak(es: seq<real>, p: real) {
    p in es && forall i :: 0 <= i < |es| ==> es[i] <= p
  }

  lemma DeclineFromPeak(e: real, a: real, p: real)
    requires 0.0 < a <= p && e > 0.0
    ensures 1.0 - Over(e, a) <= 1.0 - Over(e, p)
  {
    QuotientsOrder(Over(e, a), Over(e, p), a, p, e);
  }

  lemma QuotientsOrder(x: real, y: real, a: real, p: real, e: real)
    requires 0.0 < a <= p && e > 0.0 && x * a == e && y * p == e
    ensures y <= x
  {
    assert y > 0.0;
    assert y * a <= y * p;
    assert (y - x) * a <= 0.0;
  }

  /** One more point: the running peak and worst decline keep up with the definition. */
  lemma WatermarkStep(es: seq<real>, e: real, peak: real, worst: real)
    requires AllPositive(es) && es != [] && e > 0.0 && IsPeak(es, peak) && IsMaxDrawdown(es, worst)
    ensures var es' := es + [e]; var p := Max(peak, e);
            && AllPositive(es') && IsPeak(es', p) && IsMaxDrawdown(es', Max(worst, 1.0 - Over(e, p)))
  {
    var es', p, n := es + [e], Max(peak, e), |es|;
    var d := Max(worst, 1.0 - Over(e, p));
    assert es'[n] == e;
    assert p in es' by {
      if peak >= e {
        var k :| 0 <= k < |es| && es[k] == peak;
        assert es'[k] == peak;
      }
    }
    forall i: nat, j: nat | i <= j < |es'|
      ensures Decline(es', i, j) <= d
    {
      if j < n {
        assert Decline(es', i, j) == Decline(es, i, j);
      } else {
        DeclineFromPeak(e, es'[i], p);
      }
    }
    assert exists i: nat, j: nat :: i <= j < |es'| && Decline(es', i, j) == d by {
      if d == worst {
        var i: nat, j: nat :| i <= j < |es| && Decline(es, i, j) == worst;
        assert Decline(es', i, j) == d;
      } else {
        var k :| 0 <= k < |es'| && es'[k] == p;
        assert Decline(es', k, n) == d;
      }
    }
  }

  ghost predicate Watched(es: seq<real>, s: State) {
    AllPositive(es) && es != [] && IsPeak(es, s.peak) && IsMaxDrawdown(es, s.maxDrawdown)
  }

  lemma BarWatermark(m: Model, s: State, window: seq<Candle>, next: Candle)
    ensures var s' := Bar(m, s, window, next);
            && s'.peak == Max(s.peak, s'.equity)
            && (s'.peak > 0.0 ==> s'.maxDrawdown == Max(s.maxDrawdown, 1.0 - Over(s'.equity, s'.peak)))
  {
    var s1 := Rebalance(m, s, next, m.decide(window));
    assert s1.peak == s.peak && s1.maxDrawdown == s.maxDrawdown;
  }

  lemma WatchedStep(es: seq<real>, s: State, s': State)
    requires Watched(es, s) && s'.equity > 0.0 && s'.peak == Max(s.peak, s'.equity)
    requires s'.maxDrawdown == Max(s.maxDrawdown, 1.0 - Over(s'.equity, s'.peak))
    ensures Watched(es + [s'.equity], s')
  {
    WatermarkStep(es, s'.equity, s.peak, s.maxDrawdown);
  }

  lemma WatchedAtStart(start: Positive, c: Candle)
    ensures Watched([start], Opening(start, c))
  {
    var es := [start as real];
    assert es[0] == start;
    assert Decline(es, 0, 0) == 0.0;
  }

  lemma {:induction false} PointsWatched(m: Model, start: Positive, cs: seq<Candle>, warmup: nat, i: nat)
    requires Affordable(m) && warmup <= i < |cs|
    ensures Watched(Points(m, start, cs, warmup, i), After(m, start, cs, warmup, i))
    decreases i
  {
    if i == warmup {
      WatchedAtStart(start, cs[warmup]);
    } else {
      PointsWatched(m, start, cs, warmup, i - 1);
      AfterBooks(m, start, cs, warmup, i);
      var s := After(m, start, cs, warmup, i - 1);
      BarWatermark(m, s, cs[..i], cs[i]);
      WatchedStep(Points(m, start, cs, warmup, i - 1), s, After(m, start, cs, warmup, i));
    }
  }

  ghost function AllPoints(m: Model, start: Positive, cs: seq<Candle>, warmup: nat): seq<real>
    requires warmup < |cs|
  {
    var es := Points(m, start, cs, warmup, |cs| - 1);
    if After(m, start, cs, warmup, |cs| - 1).position != 0.0 then es + [Final(m, start, cs, warmup).equity] else es
  }

  /** The running maximum drawdown is the largest decline between any two equity points in order. */
  lemma DrawdownIsTheLargestDecline(m: Model, start: Positive, cs: seq<Candle>, warmup: nat)
    requires Affordable(m) && warmup < |cs|
    ensures Watched(AllPoints(m, start, cs, warmup), Final(m, start, cs, warmup))
  {
    PointsWatched(m, start, cs, warmup, |cs| - 1);
    AccountingIsExact(m, start, cs, warmup);
    var s := After(m, start, cs, warmup, |cs| - 1);
    if s.position != 0.0 {
      WatchedStep(Points(m, start, cs, warmup, |cs| - 1), s, Final(m, start, cs, warmup));
    }
  }

  // ----- no look-ahead -----

  /** Two series that agree on their first `k` bars are in the same state after every step that
      executes before bar `k`: same position, equity, returns and trades. */
  lemma {:induction false} NoLookAhead(m: Model, start: Positive, cs: seq<Candle>, ds: seq<Candle>, warmup: nat, k: nat,
                                       i: nat)
    requires warmup <= i < k <= |cs| && k <= |ds| && cs[..k] == ds[..k]
    ensures After(m, start, cs, warmup, i) == After(m, start, ds, warmup, i)
    decreases i
  {
    PrefixesAgree(cs, ds, k, i);
    if i > warmup {
      NoLookAhead(m, start, cs, ds, warmup, k, i - 1);
    }
  }

  lemma PrefixesAgree(cs: seq<Candle>, ds: seq<Candle>, k: nat, i: nat)
    requires i < k <= |cs| && k <= |ds| && cs[..k] == ds[..k]
    ensures cs[i] == ds[i] && cs[..i] == ds[..i]
  {
    assert cs[i] == cs[..k][i] && ds[i] == ds[..k][i];
    assert cs[..i] == cs[..k][..i] && ds[..i] == ds[..k][..i];
  }

  // ----- where trades happen -----

  /** The trade opens at the open of bar `i` and closes on bar `j`. */
  ghost predicate TradedAt(cs: seq<Candle>, t: Trade, i: nat, j: nat) {
    && i < |cs| && j < |cs| && t.entryTime == cs[i].openedAt && t.entryPrice == cs[i].open
    && t.exitTime == cs[j].openedAt && (t.exitPrice == cs[j].open || t.exitPrice == cs[j].close)
  }

  ghost predicate TradedWithin(cs: seq<Candle>, t: Trade, after: nat, to: nat) {
    exists i: nat, j: nat :: after < i <= j <= to && TradedAt(cs, t, i, j)
  }

  ghost predicate OpenedAt(cs: seq<Candle>, e: Entry, i: nat) {
    i < |cs| && e.time == cs[i].openedAt && e.price == cs[i].open
  }

  /** Every trade so far, and the open position if there is one, lies after the warm-up bar. */
  ghost predicate Placed(cs: seq<Candle>, s: State, warmup: nat, now: nat) {
    && (forall t :: t in s.trades ==> TradedWithin(cs, t, warmup, now))
    && (s.position != 0.0 ==> exists i: nat :: warmup < i <= now && OpenedAt(cs, s.entry, i))
  }

  lemma ClosePlaces(m: Model, s: State, cs: seq<Candle>, warmup: nat, now: nat, price: Positive)
    requires Placed(cs, s, warmup, now) && s.position != 0.0 && now < |cs|
    requires price == cs[now].open || price == cs[now].close
    ensures Placed(cs, ClosePosition(m, s, cs[now], price).(position := 0.0), warmup, now)
  {
    var s' := ClosePosition(m, s, cs[now], price);
    var i: nat :| warmup < i <= now && OpenedAt(cs, s.entry, i);
    var t := s'.trades[|s.trades|];
    assert TradedAt(cs, t, i, now);
    forall u | u in s'.trades
      ensures TradedWithin(cs, u, warmup, now)
    {
      assert u in s.trades || u == t;
    }
  }

  lemma LaterStillPlaced(cs: seq<Candle>, s: State, warmup: nat, now: nat)
    requires Placed(cs, s, warmup, now)
    ensures Placed(cs, s, warmup, now + 1)
  {
    forall t | t in s.trades
      ensures TradedWithin(cs, t, warmup, now + 1)
    {
      assert TradedWithin(cs, t, warmup, now);
      var i: nat, j: nat :| warmup < i <= j <= now && TradedAt(cs, t, i, j);
    }
  }

  lemma RebalancePlaces(m: Model, s: State, cs: seq<Candle>, warmup: nat, now: nat, d: Decision)
    requires Placed(cs, s, warmup, now) && warmup < now < |cs|
    ensures Placed(cs, Rebalance(m, s, cs[now], d), warmup, now)
  {
    if s.position != 0.0 {
      ClosePlaces(m, s, cs, warmup, now, cs[now].open);
    }
    var s' := Rebalance(m, s, cs[now], d);
    if Abs(d.weight - s.position) > m.threshold && d.weight != 0.0 {
      assert OpenedAt(cs, s'.entry, now);
    }
  }

  lemma {:induction false} AfterPlaces(m: Model, start: Positive, cs: seq<Candle>, warmup: nat, now: nat)
    requires warmup <= now < |cs|
    ensures Placed(cs, After(m, start, cs, warmup, now), warmup, now)
    decreases now
  {
    if now > warmup {
      AfterPlaces(m, start, cs, warmup, now - 1);
      var s := After(m, start, cs, warmup, now - 1);
      LaterStillPlaced(cs, s, warmup, now - 1);
      RebalancePlaces(m, s, cs, warmup, now, m.decide(cs[..now]));
    }
  }

  /** Every trade of a simulation opens strictly after the warm-up bar, at some bar's open, and closes on
      that bar or a later one. */
  lemma TradesFollowTheWarmup(m: Model, start: Positive, cs: seq<Candle>, warmup: nat)
    requires warmup < |cs|
    ensures forall t :: t in Final(m, start, cs, warmup).trades ==> TradedWithin(cs, t, warmup, |cs| - 1)
  {
    AfterPlaces(m, start, cs, warmup, |cs| - 1);
    var s := After(m, start, cs, warmup, |cs| - 1);
    if s.position != 0.0 {
      ClosePlaces(m, s, cs, warmup, |cs| - 1, cs[|cs| - 1].close);
    }
  }

  // ----- the engine's own loop -----

  /** One bar: decide on the window, act on the next candle's open, note the return and the peak. */
  method RunBar(m: Model, before: State, window: seq<Candle>, next: Candle) returns (s: State)
    ensures s == Bar(m, before, window, next)
  {
    s := before;
    var d := m.decide(window);
    if Abs(d.weight - s.position) > m.threshold {
      if s.position != 0.0 {
        s := ClosePosition(m, s, next, next.open);
      }
      if d.weight != 0.0 {
        s := OpenPosition(m, s, next, next.open, d);
      } else {
        s := s.(position := 0.0);
      }
    }
    var barReturn := if before.equity == 0.0 then 0.0 else Over(s.equity, before.equity) - 1.0;
    s := Watermark(s.(barReturns := s.barReturns + [barReturn]));
  }

  method RunBars(m: Model, start: Positive, cs: seq<Candle>, warmup: nat) returns (s: State)
    requires warmup < |cs|
    ensures s == After(m, start, cs, warmup, |cs| - 1)
  {
    s := Opening(start, cs[warmup]);
    var index := warmup;
    while index < |cs| - 1
      invariant warmup <= index <= |cs| - 1
      invariant s == After(m, start, cs, warmup, index)
    {
      s := RunBar(m, s, cs[..index + 1], cs[index + 1]);
      AfterOneMore(m, start, cs, warmup, index, s);
      index := index + 1;
    }
  }

  /** Too few candles are refused; otherwise the loop computes the state the law is about. */
  method SimulatePositions(m: Model, start: Positive, cs: seq<Candle>, warmup: nat) returns (r: Option<State>)
    ensures r.None? <==> |cs| <= warmup
    ensures r.Some? ==> r.value == Final(m, start, cs, warmup)
  {
    if |cs| <= warmup {
      return None;
    }
    var s := RunBars(m, start, cs, warmup);
    if s.position != 0.0 {
      s := Watermark(ClosePosition(m, s, cs[|cs| - 1], cs[|cs| - 1].close));
    }
    return Some(s);
  }
}

/** Walk-forward evaluation: fit on a train slice, simulate on the test slice after it, step on. */
module WalkForward {
  import opened Common
  import opened Backtest

  datatype Backtester = Backtester(model: Model, start: Positive, warmup: nat)

  /** One simulation, refused when the window is no longer than the warm-up. */
  function RunOn(b: Backtester, window: seq<Candle>, warmup: nat): Option<State> {
    if |window| <= warmup then None else Some(Final(b.model, b.start, window, warmup))
  }

  /** `fit` tunes a backtester on train candles. */
  datatype Evaluator = Evaluator(
    backtester: Backtester, fit: Option<seq<Candle> -> Backtester>,
    trainSize: int, testSize: int, stepSize: int, trainWarmup: bool)
  {
    /** The sizes the evaluator accepts. */
    predicate Valid() {
      && trainSize > 0 && testSize > 0 && stepSize > 0
      && (!trainWarmup ==> trainSize > backtester.warmup && testSize > backtester.warmup)
    }

    /** The backtester of a fold, from its train candles. */
    function Fitted(train: seq<Candle>): Backtester { if fit.Some? then fit.value(train) else backtester }

    /** How much of the window only warms up: the train slice, or the backtester's own. */
    function WarmupFor(b: Backtester): nat
      requires Valid()
    {
      if trainWarmup then trainSize else b.warmup
    }
  }

  datatype Fold = Fold(trainStart: nat, trainEnd: nat, testStart: nat, testEnd: nat, metrics: State)

  /** The candles a fold simulates: train and test, or the test slice alone. */
  function WindowOf(e: Evaluator, cs: seq<Candle>, start: nat): seq<Candle>
    requires e.Valid() && start + e.trainSize + e.testSize <= |cs|
  {
    var test := start + e.trainSize;
    cs[(if e.trainWarmup then start else test)..test + e.testSize]
  }

  function Measure(e: Evaluator, cs: seq<Candle>, start: nat): Option<State>
    requires e.Valid() && start + e.trainSize + e.testSize <= |cs|
  {
    var b := e.Fitted(cs[start..start + e.trainSize]);
    RunOn(b, WindowOf(e, cs, start), e.WarmupFor(b))
  }

  /** Number of whole folds that fit. */
  function FoldCount(e: Evaluator, n: nat): nat
    requires e.Valid()
  {
    if n < e.trainSize + e.testSize then 0 else (n - e.trainSize - e.testSize) / e.stepSize + 1
  }

  ghost function FoldStart(e: Evaluator, k: nat): nat
    requires e.Valid()
  {
    k * e.stepSize
  }

  ghost predicate IsFold(e: Evaluator, cs: seq<Candle>, k: nat, f: Fold)
    requires e.Valid()
  {
    && f.trainStart == FoldStart(e, k) && f.trainEnd == f.trainStart + e.trainSize
    && f.testStart == f.trainEnd && f.testEnd == f.testStart + e.testSize <= |cs|
    && Measure(e, cs, f.trainStart) == Some(f.metrics)
  }

  /** The fold starting here has a fitted warm-up its window cannot hold. */
  ghost predicate RefusesAt(e: Evaluator, cs: seq<Candle>, k: nat)
    requires e.Valid()
  {
    FoldStart(e, k) + e.trainSize + e.testSize <= |cs| && Measure(e, cs, FoldStart(e, k)).None?
  }

  lemma NextFoldFits(e: Evaluator, n: nat, k: nat)
    requires e.Valid() && e.trainSize + e.testSize <= n
    ensures FoldStart(e, k) + e.trainSize + e.testSize <= n <==> k < FoldCount(e, n)
    ensures FoldStart(e, k + 1) == FoldStart(e, k) + e.stepSize
  {
    var room, step := n - e.trainSize - e.testSize, e.stepSize;
    var q := room / step;
    if k <= q {
      TimesStep(k, q, step);
    } else {
      TimesStep(q + 1, k, step);
    }
  }

  lemma TimesStep(a: nat, b: nat, step: nat)
    requires a <= b
    ensures a * step <= b * step
  {
  }

  /** One fold's simulation. */
  method RunFold(e: Evaluator, cs: seq<Candle>, start: nat) returns (metrics: Option<State>)
    requires e.Valid() && start + e.trainSize + e.testSize <= |cs|
    ensures metrics == Measure(e, cs, start)
  {
    var trainEnd := start + e.trainSize;
    var testEnd := trainEnd + e.testSize;
    var b := e.backtester;
    if e.fit.Some? {
      b := e.fit.value(cs[start..trainEnd]);
    }
    if e.trainWarmup {
      metrics := SimulatePositions(b.model, b.start, cs[start..testEnd], e.trainSize);
    } else {
      metrics := SimulatePositions(b.model, b.start, cs[trainEnd..testEnd], b.warmup);
    }
    MeasureOf(e, cs, start, b);
  }

  /** A fold's measure, by the slices its simulation runs on. */
  lemma MeasureOf(e: Evaluator, cs: seq<Candle>, start: nat, b: Backtester)
    requires e.Valid() && start + e.trainSize + e.testSize <= |cs|
    requires b == e.Fitted(cs[start..start + e.trainSize])
    ensures var test := start + e.trainSize;
            Measure(e, cs, start) == if e.trainWarmup then RunOn(b, cs[start..test + e.testSize], e.trainSize)
                                     else RunOn(b, cs[test..test + e.testSize], b.warmup)
  {
  }

  /** Exactly the whole folds that fit, in order, each measured on its own slices; refused exactly for bad
      sizes, too few candles, or a fold whose fitted warm-up its window cannot hold. */
  method Evaluate(e: Evaluator, cs: seq<Candle>) returns (r: Option<seq<Fold>>)
    ensures r.Some? ==>
              && e.Valid() && |r.value| == FoldCount(e, |cs|) > 0
              && forall k: nat :: k < |r.value| ==> IsFold(e, cs, k, r.value[k])
    ensures r.None? <==>
              || !e.Valid() || |cs| < e.trainSize + e.testSize
              || exists k: nat :: RefusesAt(e, cs, k)
  {
    if !e.Valid() {
      return None;
    }
    var folds: seq<Fold> := [];
    var trainStart := 0;
    ghost var k := 0;
    while trainStart + e.trainSize + e.testSize <= |cs|
      invariant k == |folds| && trainStart == FoldStart(e, k)
      invariant k <= FoldCount(e, |cs|)
      invariant forall j: nat :: j < |folds| ==> IsFold(e, cs, j, folds[j])
      decreases |cs| - trainStart
    {
      NextFoldFits(e, |cs|, k);
      var metrics := RunFold(e, cs, trainStart);
      if metrics.None? {
        assert RefusesAt(e, cs, k);
        return None;
      }
      var trainEnd := trainStart + e.trainSize;
      folds := folds + [Fold(trainStart, trainEnd, trainEnd, trainEnd + e.testSize, metrics.value)];
      trainStart := trainStart + e.stepSize;
      k := k + 1;
    }
    if folds == [] {
      return None;
    }
    NextFoldFits(e, |cs|, k);
    forall j: nat
      ensures !RefusesAt(e, cs, j)
    {
      FoldsRefuseNothing(e, cs, folds, j);
    }
    return Some(folds);
  }

  lemma FoldsRefuseNothing(e: Evaluator, cs: seq<Candle>, folds: seq<Fold>, j: nat)
    requires e.Valid() && |cs| >= e.trainSize + e.testSize && |folds| == FoldCount(e, |cs|)
    requires forall k: nat :: k < |folds| ==> IsFold(e, cs, k, folds[k])
    ensures !RefusesAt(e, cs, j)
  {
    NextFoldFits(e, |cs|, j);
    if j < |folds| {
      assert IsFold(e, cs, j, folds[j]);
    }
  }

  // ----- what a fold can see -----

  /** The two series agree on the candles from `i` up to, not including, `j`. */
  ghost predicate SameBetween(cs: seq<Candle>, ds: seq<Candle>, i: nat, j: nat) {
    i <= j <= |cs| && j <= |ds| && cs[i..j] == ds[i..j]
  }

  lemma SameInside(cs: seq<Candle>, ds: seq<Candle>, i: nat, j: nat, i': nat, j': nat)
    requires SameBetween(cs, ds, i, j) && i <= i' <= j' <= j
    ensures SameBetween(cs, ds, i', j')
  {
    forall k | i' <= k < j'
      ensures cs[k] == ds[k]
    {
      assert cs[k] == cs[i..j][k - i] && ds[k] == ds[i..j][k - i];
    }
  }

  /** The bar of the whole series at position `i` of a fold's window. */
  function BarAt(e: Evaluator, start: nat, i: nat): nat
    requires e.Valid()
  {
    (if e.trainWarmup then start else start + e.trainSize) + i
  }

  lemma WindowStart(e: Evaluator, cs: seq<Candle>, start: nat, n: nat)
    requires e.Valid() && start + e.trainSize + e.testSize <= |cs| && n <= |WindowOf(e, cs, start)|
    ensures var first := BarAt(e, start, 0); first + n <= |cs| && WindowOf(e, cs, start)[..n] == cs[first..first + n]
  {
  }

  /** No look-ahead inside a fold: two series that agree from the train start up to and including a bar
      of the window fit the same backtester and put it into the same state there, whatever the later bars
      of the test slice are: same positions, equity, returns and trades. */
  lemma FoldsDoNotLookAhead(e: Evaluator, cs: seq<Candle>, ds: seq<Candle>, start: nat, i: nat)
    requires e.Valid() && start + e.trainSize + e.testSize <= |cs| && start + e.trainSize + e.testSize <= |ds|
    requires start + e.trainSize <= BarAt(e, start, i) < start + e.trainSize + e.testSize
    requires SameBetween(cs, ds, start, BarAt(e, start, i) + 1)
    ensures var b := e.Fitted(cs[start..start + e.trainSize]);
            var (w, w', warmup) := (WindowOf(e, cs, start), WindowOf(e, ds, start), e.WarmupFor(b));
            && b == e.Fitted(ds[start..start + e.trainSize]) && |w| == |w'|
            && (warmup <= i ==> After(b.model, b.start, w, warmup, i) == After(b.model, b.start, w', warmup, i))
  {
    var bar := BarAt(e, start, i);
    SameInside(cs, ds, start, bar + 1, start, start + e.trainSize);
    var b := e.Fitted(cs[start..start + e.trainSize]);
    var (w, w') := (WindowOf(e, cs, start), WindowOf(e, ds, start));
    var first := BarAt(e, start, 0);
    SameInside(cs, ds, start, bar + 1, first, bar + 1);
    WindowStart(e, cs, start, i + 1);
    WindowStart(e, ds, start, i + 1);
    if e.WarmupFor(b) <= i {
      NoLookAhead(b.model, b.start, w, w', e.WarmupFor(b), i + 1, i);
    }
  }

  /** Only the test slice trades: every trade of a fold opens at the open of a bar after the first test
      bar and closes before the test end, whether the train slice warms up or is left out. */
  lemma FoldsTradeInTheTestSlice(e: Evaluator, cs: seq<Candle>, k: nat, f: Fold, t: Trade)
    requires e.Valid() && IsFold(e, cs, k, f) && t in f.metrics.trades
    ensures exists i: nat, j: nat :: f.testStart < i <= j < f.testEnd && TradedAt(cs, t, i, j)
  {
    var b := e.Fitted(cs[f.trainStart..f.trainEnd]);
    var (w, warmup) := (WindowOf(e, cs, f.trainStart), e.WarmupFor(b));
    TradesFollowTheWarmup(b.model, b.start, w, warmup);
    assert TradedWithin(w, t, warmup, |w| - 1);
    var i: nat, j: nat :| warmup < i <= j <= |w| - 1 && TradedAt(w, t, i, j);
    var (i', j') := (BarAt(e, f.trainStart, i), BarAt(e, f.trainStart, j));
    assert w[i] == cs[i'] && w[j] == cs[j'];
    assert TradedAt(cs, t, i', j');
  }
}
