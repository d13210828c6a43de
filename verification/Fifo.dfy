/** First in, first out: without tolerance, the unit at any cumulative position sold is matched to the
    unit at the same cumulative position bought. */
module FifoMatching {
  import opened Common
  import opened PaperReplay

  // ----- lines of labelled pieces -----

  datatype Piece<T> = Piece(mark: T, quantity: real)

  /** The label found at distance `x` along the pieces laid end to end. */
  function At<T>(ps: seq<Piece<T>>, x: real): Option<T> {
    if ps == [] then None
    else if x < ps[0].quantity then Some(ps[0].mark)
    else At(ps[1..], x - ps[0].quantity)
  }

  ghost function Length<T>(ps: seq<Piece<T>>): real {
    if ps == [] then 0.0 else ps[0].quantity + Length(ps[1..])
  }

  /** No piece is of negative length. */
  ghost predicate Solid<T>(ps: seq<Piece<T>>) {
    forall i :: 0 <= i < |ps| ==> ps[i].quantity >= 0.0
  }

  /** The same label at every distance, and the same length. */
  ghost predicate Same<T>(ps: seq<Piece<T>>, qs: seq<Piece<T>>) {
    Length(ps) == Length(qs) && forall x: real :: x >= 0.0 ==> At(ps, x) == At(qs, x)
  }

  lemma {:induction false} LengthNonNegative<T>(ps: seq<Piece<T>>)
    requires Solid(ps)
    ensures Length(ps) >= 0.0
  {
    if ps != [] {
      assert Solid(ps[1..]);
      LengthNonNegative(ps[1..]);
    }
  }

  lemma {:induction false} LengthConcat<T>(ps: seq<Piece<T>>, qs: seq<Piece<T>>)
    ensures Length(ps + qs) == Length(ps) + Length(qs)
  {
    if ps == [] {
      assert ps + qs == qs;
    } else {
      assert (ps + qs)[1..] == ps[1..] + qs;
      LengthConcat(ps[1..], qs);
    }
  }

  lemma {:induction false} AtConcat<T>(ps: seq<Piece<T>>, qs: seq<Piece<T>>, x: real)
    requires Solid(ps) && x >= 0.0
    ensures At(ps + qs, x) == if x < Length(ps) then At(ps, x) else At(qs, x - Length(ps))
    ensures x < Length(ps) ==> At(ps, x).Some?
  {
    if ps == [] {
      assert ps + qs == qs;
    } else {
      assert (ps + qs)[1..] == ps[1..] + qs && Solid(ps[1..]);
      if x >= ps[0].quantity {
        AtConcat(ps[1..], qs, x - ps[0].quantity);
      } else {
        LengthNonNegative(ps[1..]);
      }
    }
  }

  /** Laying the same pieces after lines that are the same gives lines that are the same. */
  lemma SameAppend<T(!new)>(ps: seq<Piece<T>>, qs: seq<Piece<T>>, rs: seq<Piece<T>>)
    requires Same(ps, qs) && Solid(ps) && Solid(qs)
    ensures Same(ps + rs, qs + rs)
  {
    LengthConcat(ps, rs);
    LengthConcat(qs, rs);
    forall x: real | x >= 0.0
      ensures At(ps + rs, x) == At(qs + rs, x)
    {
      AtConcat(ps, rs, x);
      AtConcat(qs, rs, x);
    }
  }

  /** And before them. */
  lemma SamePrepend<T(!new)>(ps: seq<Piece<T>>, qs: seq<Piece<T>>, rs: seq<Piece<T>>)
    requires Same(qs, rs) && Solid(ps)
    ensures Same(ps + qs, ps + rs)
  {
    LengthConcat(ps, qs);
    LengthConcat(ps, rs);
    forall x: real | x >= 0.0
      ensures At(ps + qs, x) == At(ps + rs, x)
    {
      AtConcat(ps, qs, x);
      AtConcat(ps, rs, x);
    }
  }

  /** Cutting a piece in two changes nothing. */
  lemma SameCut<T(!new)>(mark: T, a: real, b: real, rest: seq<Piece<T>>)
    requires a >= 0.0 && b >= 0.0
    ensures Same([Piece(mark, a), Piece(mark, b)] + rest, [Piece(mark, a + b)] + rest)
  {
    var (cut, whole) := ([Piece(mark, a), Piece(mark, b)] + rest, [Piece(mark, a + b)] + rest);
    assert cut[1..] == [Piece(mark, b)] + rest && cut[1..][1..] == rest && whole[1..] == rest;
    forall x: real | x >= 0.0
      ensures At(cut, x) == At(whole, x)
    {
      assert At(cut, x) == if x < a then Some(mark) else At(cut[1..], x - a);
      assert At(cut[1..], x - a) == if x - a < b then Some(mark) else At(rest, x - a - b);
      assert At(whole, x) == if x < a + b then Some(mark) else At(rest, x - (a + b));
    }
    assert Length(cut) == a + Length(cut[1..]) && Length(cut[1..]) == b + Length(rest);
  }

  lemma SameCutBehind<T(!new)>(front: seq<Piece<T>>, mark: T, a: real, b: real, rest: seq<Piece<T>>)
    requires Solid(front) && a >= 0.0 && b >= 0.0
    ensures Same(front + ([Piece(mark, a), Piece(mark, b)] + rest), front + ([Piece(mark, a + b)] + rest))
  {
    SameCut(mark, a, b, rest);
    SamePrepend(front, [Piece(mark, a), Piece(mark, b)] + rest, [Piece(mark, a + b)] + rest);
  }

  lemma SameTrans<T(!new)>(ps: seq<Piece<T>>, qs: seq<Piece<T>>, rs: seq<Piece<T>>)
    requires Same(ps, qs) && Same(qs, rs)
    ensures Same(ps, rs)
  {
    forall x: real | x >= 0.0
      ensures At(ps, x) == At(rs, x)
    {
      assert At(ps, x) == At(qs, x);
    }
  }

  // ----- trades, lots and fills as lines -----

  datatype Origin = Origin(time: real, price: real, decisionId: string)

  datatype Exit = Exit(time: real, price: real)

  /** The quantity a trade closed, from the two fields the report keeps. */
  function Closed(t: Trade): real { t.notional / t.entryPrice }

  function OriginOf(t: Trade): Origin { Origin(t.entryTime, t.entryPrice, t.decisionId) }

  function ExitOf(t: Trade): Exit { Exit(t.exitTime, t.exitPrice) }

  function Entries(ts: seq<Trade>): seq<Piece<Origin>> {
    seq(|ts|, i requires 0 <= i < |ts| => Piece(OriginOf(ts[i]), Closed(ts[i])))
  }

  function Exits(ts: seq<Trade>): seq<Piece<Exit>> {
    seq(|ts|, i requires 0 <= i < |ts| => Piece(ExitOf(ts[i]), Closed(ts[i])))
  }

  function Open(lots: seq<Lot>): seq<Piece<Origin>> {
    seq(|lots|, i requires 0 <= i < |lots| => Piece(Origin(lots[i].time, lots[i].price, lots[i].decisionId),
                                                    lots[i].quantity))
  }

  function BoughtBy(e: Event): seq<Piece<Origin>> {
    if e.Filled? && e.fill.side == Buy
    then [Piece(Origin(e.fill.time, e.fill.price, e.fill.decisionId), e.fill.quantity as real)] else []
  }

  function SoldBy(e: Event): seq<Piece<Exit>> {
    if e.Filled? && e.fill.side == Sell then [Piece(Exit(e.fill.time, e.fill.price), e.fill.quantity as real)] else []
  }

  function Bought(es: seq<Event>): seq<Piece<Origin>> {
    if es == [] then [] else BoughtBy(es[0]) + Bought(es[1..])
  }

  function Sold(es: seq<Event>): seq<Piece<Exit>> {
    if es == [] then [] else SoldBy(es[0]) + Sold(es[1..])
  }

  // ----- one match -----

  lemma ClosedIsMatched(lot: Lot, matched: real, price: Positive, time: real, fees: real)
    ensures Closed(TradeFor(lot, matched, price, time, fees)) == matched
  {
    assert matched * lot.price / lot.price == matched;
  }

  lemma TradeAppends(ts: seq<Trade>, t: Trade)
    ensures Entries(ts + [t]) == Entries(ts) + [Piece(OriginOf(t), Closed(t))]
    ensures Exits(ts + [t]) == Exits(ts) + [Piece(ExitOf(t), Closed(t))]
  {
  }

  ghost function LotPiece(lot: Lot): Piece<Origin> { Piece(Origin(lot.time, lot.price, lot.decisionId), lot.quantity) }

  lemma OpenSplits(lots: seq<Lot>)
    requires lots != []
    ensures Open(lots) == [LotPiece(lots[0])] + Open(lots[1..])
  {
  }

  /** What is still bought: closed pieces first, then what is open. */
  ghost function Line(m: Matching): seq<Piece<Origin>> { Entries(m.trades) + Open(m.lots) }

  /** What is being sold: closed pieces, then what is left to match. */
  ghost function SaleLine(m: Matching, x: Exit): seq<Piece<Exit>> { Exits(m.trades) + [Piece(x, m.remaining)] }

  /** A match lays the matched part of the oldest lot behind the closed pieces, and leaves the rest open. */
  lemma LineAfterMatch(m: Matching, price: Positive, time: real, entryShare: real, exitShare: real)
    requires m.lots != [] && m.remaining > 0.0
    ensures var (lot, m') := (m.lots[0], MatchWith(m, price, time, 0.0, entryShare, exitShare));
            var (o, matched) := (LotPiece(lot).mark, Min(lot.quantity, m.remaining));
            && Line(m') == Entries(m.trades) + ((if matched < lot.quantity
                                                 then [Piece(o, matched), Piece(o, lot.quantity - matched)]
                                                 else [Piece(o, lot.quantity as real)]) + Open(m.lots[1..]))
            && (Solid(Entries(m.trades)) ==> Solid(Entries(m'.trades)))
  {
    var (lot, m') := (m.lots[0], MatchWith(m, price, time, 0.0, entryShare, exitShare));
    var matched := Min(lot.quantity, m.remaining);
    var t := TradeFor(lot, matched, price, time, entryShare + exitShare);
    ClosedIsMatched(lot, matched, price, time, entryShare + exitShare);
    TradeAppends(m.trades, t);
    if matched < lot.quantity {
      OpenSplits(m'.lots);
      assert m'.lots[1..] == m.lots[1..];
    }
  }

  lemma MatchKeepsLine(m: Matching, price: Positive, time: real, entryShare: real, exitShare: real)
    requires m.lots != [] && m.remaining > 0.0 && Solid(Entries(m.trades))
    ensures var m' := MatchWith(m, price, time, 0.0, entryShare, exitShare);
            Same(Line(m'), Line(m)) && Solid(Entries(m'.trades))
  {
    var lot := m.lots[0];
    var matched := Min(lot.quantity, m.remaining);
    var (o, tail) := (LotPiece(lot).mark, Open(m.lots[1..]));
    LineAfterMatch(m, price, time, entryShare, exitShare);
    OpenSplits(m.lots);
    assert Line(m) == Entries(m.trades) + ([Piece(o, lot.quantity)] + tail);
    if matched < lot.quantity {
      SameCutBehind(Entries(m.trades), o, matched, lot.quantity - matched, tail);
    }
  }

  lemma MatchKeepsSale(m: Matching, price: Positive, time: real, entryShare: real, exitShare: real)
    requires m.lots != [] && m.remaining > 0.0 && Solid(Exits(m.trades))
    ensures var m' := MatchWith(m, price, time, 0.0, entryShare, exitShare);
            Same(SaleLine(m', Exit(time, price)), SaleLine(m, Exit(time, price))) && Solid(Exits(m'.trades))
  {
    var (lot, x) := (m.lots[0], Exit(time, price));
    var matched := Min(lot.quantity, m.remaining);
    var t := TradeFor(lot, matched, price, time, entryShare + exitShare);
    var (m', front) := (MatchWith(m, price, time, 0.0, entryShare, exitShare), Exits(m.trades));
    ClosedIsMatched(lot, matched, price, time, entryShare + exitShare);
    TradeAppends(m.trades, t);
    var cut := [Piece(x, matched), Piece(x, m.remaining - matched)];
    assert SaleLine(m', x) == front + cut;
    SameCut(x, matched, m.remaining - matched, []);
    assert cut + [] == cut && [Piece(x, m.remaining)] + [] == [Piece(x, m.remaining)];
    SamePrepend(front, cut, [Piece(x, m.remaining)]);
  }

  /** Closing lots takes them from the front, and hands the sale out from its front. */
  lemma {:induction false} CloseKeepsLines(m: Matching, price: Positive, time: real)
    requires m.remaining >= 0.0 && Solid(Entries(m.trades)) && Solid(Exits(m.trades))
    ensures var m' := CloseLots(m, price, time, 0.0);
            && Same(Line(m'), Line(m)) && Same(SaleLine(m', Exit(time, price)), SaleLine(m, Exit(time, price)))
            && Solid(Entries(m'.trades)) && Solid(Exits(m'.trades))
    decreases |m.lots|, m.remaining > 0.0
  {
    if m.lots != [] && m.remaining > 0.0 {
      var (lot, x) := (m.lots[0], Exit(time, price));
      var matched := Min(lot.quantity, m.remaining);
      var (entryShare, exitShare) := (Share(lot.fee, matched, lot.quantity), Share(m.feeLeft, matched, m.remaining));
      var (m1, m') := (MatchOne(m, price, time, 0.0), CloseLots(m, price, time, 0.0));
      MatchKeepsLine(m, price, time, entryShare, exitShare);
      MatchKeepsSale(m, price, time, entryShare, exitShare);
      CloseKeepsLines(m1, price, time);
      SameTrans(Line(m'), Line(m1), Line(m));
      SameTrans(SaleLine(m', x), SaleLine(m1, x), SaleLine(m, x));
    }
  }

  // ----- every replay -----

  /** Closed and open pieces are the line bought; closed pieces are the line sold. */
  ghost predicate Fifo(s: State, bought: seq<Piece<Origin>>, sold: seq<Piece<Exit>>) {
    && Solid(Entries(s.trades)) && Solid(Exits(s.trades)) && Solid(bought) && Solid(sold)
    && Same(Entries(s.trades) + Open(s.lots), bought) && Same(Exits(s.trades), sold)
  }

  lemma OpenIsSolid(ts: seq<Trade>, lots: seq<Lot>)
    requires Solid(Entries(ts))
    ensures Solid(Entries(ts) + Open(lots))
  {
  }

  lemma BuyIsFifo(s: State, f: Fill, fee: real, bought: seq<Piece<Origin>>, sold: seq<Piece<Exit>>)
    requires Fifo(s, bought, sold) && f.side == Buy
    ensures Fifo(Taken(s, f, fee, 0.0), bought + [Piece(Origin(f.time, f.price, f.decisionId), f.quantity)], sold)
  {
    var (s', p) := (Taken(s, f, fee, 0.0), Piece(Origin(f.time, f.price, f.decisionId), f.quantity as real));
    assert Entries(s'.trades) + Open(s'.lots) == (Entries(s.trades) + Open(s.lots)) + [p];
    OpenIsSolid(s.trades, s.lots);
    SameAppend(Entries(s.trades) + Open(s.lots), bought, [p]);
  }

  lemma EmptyPieceIsNothing<T(!new)>(ps: seq<Piece<T>>, mark: T)
    requires Solid(ps)
    ensures Same(ps, ps + [Piece(mark, 0.0)])
  {
    LengthConcat(ps, [Piece(mark, 0.0)]);
    forall x: real | x >= 0.0
      ensures At(ps, x) == At(ps + [Piece(mark, 0.0)], x)
    {
      AtConcat(ps, [Piece(mark, 0.0)], x);
      AtConcat(ps, [], x);
      assert ps + [] == ps && [Piece(mark, 0.0)][1..] == [];
    }
  }

  lemma SellIsFifo(s: State, f: Fill, fee: real, bought: seq<Piece<Origin>>, sold: seq<Piece<Exit>>)
    requires Fifo(s, bought, sold) && f.side == Sell && s.dust == [] && f.quantity <= Total(s.lots, LOT_QUANTITY)
    ensures Fifo(Taken(s, f, fee, 0.0), bought, sold + [Piece(Exit(f.time, f.price), f.quantity)])
  {
    var (m0, m, x) := (Matching(s.trades, s.lots, f.quantity, fee, s.dust), Matched(s, f, fee, 0.0),
                       Exit(f.time, f.price));
    CloseKeepsLines(m0, f.price, f.time);
    ExactSell(s, f, fee);
    SameTrans(Line(m), Line(m0), bought);
    SameAppend(Exits(s.trades), sold, [Piece(x, f.quantity as real)]);
    EmptyPieceIsNothing(Exits(m.trades), x);
    SameTrans(Exits(m.trades), SaleLine(m, x), SaleLine(m0, x));
    SameTrans(Exits(m.trades), SaleLine(m0, x), sold + [Piece(x, f.quantity as real)]);
  }

  lemma StepIsFifo(s: State, e: Event, feeBps: real, bought: seq<Piece<Origin>>, sold: seq<Piece<Exit>>)
    requires Fifo(s, bought, sold) && s.dust == []
    requires e.Filled? && e.fill.side == Sell ==> e.fill.quantity <= Total(s.lots, LOT_QUANTITY)
    ensures Fifo(Step(s, e, feeBps, 0.0), bought + BoughtBy(e), sold + SoldBy(e))
  {
    assert bought + [] == bought && sold + [] == sold;
    if e.Filled? {
      if e.fill.side == Buy {
        BuyIsFifo(s, e.fill, FeeOf(e.fill, feeBps), bought, sold);
      } else {
        SellIsFifo(s, e.fill, FeeOf(e.fill, feeBps), bought, sold);
      }
    }
  }

  lemma LinesContinue<T>(line: seq<Piece<T>>, step: seq<Piece<T>>, rest: seq<Piece<T>>)
    ensures (line + step) + rest == line + (step + rest)
  {
  }

  lemma {:induction false} ReplayIsFifo(s: State, es: seq<Event>, feeBps: real, start: real,
                                        bought: seq<Piece<Origin>>, sold: seq<Piece<Exit>>) returns (s': State)
    requires Balanced(s, start) && Exact(s) && NeverOversells(s, es, feeBps, 0.0) && Fifo(s, bought, sold)
    ensures s' == Replay(s, es, feeBps, 0.0) && Fifo(s', bought + Bought(es), sold + Sold(es))
    decreases |es|
  {
    if es == [] {
      assert bought + Bought(es) == bought && sold + Sold(es) == sold;
      s' := s;
    } else {
      StepStaysExact(s, es[0], feeBps, start);
      StepIsFifo(s, es[0], feeBps, bought, sold);
      LinesContinue(bought, BoughtBy(es[0]), Bought(es[1..]));
      LinesContinue(sold, SoldBy(es[0]), Sold(es[1..]));
      s' := ReplayIsFifo(Step(s, es[0], feeBps, 0.0), es[1..], feeBps, start, bought + BoughtBy(es[0]),
                         sold + SoldBy(es[0]));
    }
  }

  /** The trade whose piece covers a position shows its origin and its exit there. */
  lemma {:induction false} TradeAt(ts: seq<Trade>, x: real) returns (t: Trade)
    requires Solid(Entries(ts)) && 0.0 <= x < Length(Entries(ts))
    ensures t in ts && At(Entries(ts), x) == Some(OriginOf(t)) && At(Exits(ts), x) == Some(ExitOf(t))
  {
    assert ts != [];
    assert Entries(ts)[1..] == Entries(ts[1..]) && Exits(ts)[1..] == Exits(ts[1..]);
    if x < Closed(ts[0]) {
      t := ts[0];
    } else {
      assert Solid(Entries(ts[1..]));
      t := TradeAt(ts[1..], x - Closed(ts[0]));
    }
  }

  lemma {:induction false} SameLengths(ts: seq<Trade>)
    ensures Length(Entries(ts)) == Length(Exits(ts))
  {
    if ts != [] {
      assert Entries(ts)[1..] == Entries(ts[1..]) && Exits(ts)[1..] == Exits(ts[1..]);
      SameLengths(ts[1..]);
    }
  }

  lemma FifoTrade(s: State, bought: seq<Piece<Origin>>, sold: seq<Piece<Exit>>, x: real) returns (t: Trade)
    requires Fifo(s, bought, sold) && 0.0 <= x < Length(sold)
    ensures t in s.trades && At(sold, x) == Some(ExitOf(t)) && At(bought, x) == Some(OriginOf(t))
  {
    SameLengths(s.trades);
    t := TradeAt(s.trades, x);
    AtConcat(Entries(s.trades), Open(s.lots), x);
  }

  /** First in, first out: without tolerance and oversells, the unit at cumulative position `x` of the sales
      belongs to a trade that closes with that sale and opened with the buy at the same position `x`. */
  lemma FirstInFirstOut(start: Positive, firstPrice: real, es: seq<Event>, feeBps: real, x: real) returns (t: Trade)
    requires NeverOversells(Opening(start, firstPrice), es, feeBps, 0.0) && 0.0 <= x < Length(Sold(es))
    ensures t in Replay(Opening(start, firstPrice), es, feeBps, 0.0).trades
    ensures At(Sold(es), x) == Some(ExitOf(t)) && At(Bought(es), x) == Some(OriginOf(t))
  {
    var s0 := Opening(start, firstPrice);
    assert Entries(s0.trades) + Open(s0.lots) == [] && Exits(s0.trades) == [];
    var s := ReplayIsFifo(s0, es, feeBps, start, [], []);
    assert [] + Bought(es) == Bought(es) && [] + Sold(es) == Sold(es);
    t := FifoTrade(s, Bought(es), Sold(es), x);
  }
}
