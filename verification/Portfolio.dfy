/** The paper book: cash, positions at weighted-average cost, marks, realized PnL, daily anchor.
    `Book` is the value; `InMemoryPortfolioBook` is the object that updates it in place. */
module Portfolio {
  import opened Common
  import opened Dictionary

  datatype Position = Position(
    quantity: NonNegative, averageCost: NonNegative, feesPaid: NonNegative,
    openedAt: Option<real>, highWater: NonNegative, entryStrategy: Option<string>)

  const FLAT := Position(0.0, 0.0, 0.0, None, 0.0, None)

  datatype Book = Book(
    startingNav: Positive, cash: real, peakNav: Positive, realizedPnl: real,
    positions: Dict<Position>, marks: Dict<Positive>,
    dayStartNav: real, dayStartDate: Option<int>)

  datatype BookError = NonPositiveFill | NegativeFee | ShortSale | NonPositiveMark | NonPositiveNav

  /** A new book: all cash, anchored at its own value. */
  function Opening(startingNav: Positive): Book {
    Book(startingNav, startingNav, startingNav, 0.0, [], [], startingNav, None)
  }

  function PositionOf(b: Book, key: string): Position {
    match Get(b.positions, key) case Some(p) => p case None => FLAT
  }

  /** Every position's key is upper-case, unique, and a flat position carries no cost. */
  ghost predicate Valid(b: Book) {
    && Distinct(b.positions) && Distinct(b.marks)
    && (forall i :: 0 <= i < |b.positions| ==> Upper(b.positions[i].0) == b.positions[i].0)
    && (forall i :: 0 <= i < |b.marks| ==> Upper(b.marks[i].0) == b.marks[i].0)
    && (forall i :: 0 <= i < |b.positions| ==>
          (b.positions[i].1.quantity > 0.0 <==> b.positions[i].1.averageCost > 0.0))
  }

  // ----- valuation -----

  function MarkOr(marks: Dict<Positive>, key: string, p: Position): NonNegative {
    var mark: Option<Positive> := Get<Positive>(marks, key);
    if mark.Some? then mark.value else p.averageCost
  }

  function Worth(marks: Dict<Positive>): (string, Position) -> real {
    (key: string, p: Position) => p.quantity * MarkOr(marks, key, p)
  }

  function Nav(b: Book): real {
    b.cash + Sum(b.positions, Worth(b.marks))
  }

  ghost function Cost(p: Position): real { p.quantity * p.averageCost }

  ghost const COST := (key: string, p: Position) => Cost(p)
  ghost const FEES := (key: string, p: Position) => p.feesPaid as real

  /** What was paid in plus what trading realized is what the book holds at cost. */
  ghost predicate CostIdentity(b: Book) {
    b.cash + Sum(b.positions, COST) == b.startingNav + b.realizedPnl
  }

  // ----- marks -----

  function Marked(b: Book, key: string, price: Positive): Book {
    var held := Get(b.positions, key);
    b.(marks := Put(b.marks, key, price),
       positions := if held.Some? && held.value.quantity > 0.0
                    then Put(b.positions, key, held.value.(highWater := Max(held.value.highWater, price)))
                    else b.positions)
  }

  function Mark(b: Book, asset: string, price: real): (Book, Option<BookError>) {
    if price <= 0.0 then (b, Some(NonPositiveMark)) else (Marked(b, Upper(asset), price), None)
  }

  // ----- fills -----

  function BlendedCost(p: Position, quantity: Positive, price: Positive): (c: Positive)
    ensures c * (p.quantity + quantity) == p.quantity * p.averageCost + quantity * price
  {
    ProductPositive(quantity, price);
    ProductGrows(p.quantity, 0.0, p.averageCost);
    QuotientPositive(p.quantity * p.averageCost + quantity * price, p.quantity + quantity);
    (p.quantity * p.averageCost + quantity * price) / (p.quantity + quantity)
  }

  function Bought(p: Position, quantity: Positive, price: Positive, fee: NonNegative,
                  now: real, strategy: Option<string>): Position
  {
    var opening := p.quantity == 0.0;
    Position(
      p.quantity + quantity, BlendedCost(p, quantity, price), p.feesPaid + fee,
      if opening then Some(now) else p.openedAt,
      if opening then price else Max(p.highWater, price),
      if opening && strategy.Some? then strategy else p.entryStrategy)
  }

  function SoldDown(p: Position, quantity: Positive, fee: NonNegative): Position
    requires quantity <= p.quantity
  {
    if p.quantity - quantity == 0.0 then Position(0.0, 0.0, p.feesPaid + fee, None, 0.0, None)
    else p.(quantity := p.quantity - quantity, feesPaid := p.feesPaid + fee)
  }

  /** The last two steps of every fill: mark at the fill price, then raise the peak. */
  function Settled(b: Book, key: string, price: Positive): Book {
    var b' := Marked(b, key, price);
    b'.(peakNav := Max(b'.peakNav, Nav(b')))
  }

  function Buying(b: Book, key: string, quantity: Positive, price: Positive, fee: NonNegative,
                  now: real, strategy: Option<string>): Book
  {
    b.(positions := Put(b.positions, key, Bought(PositionOf(b, key), quantity, price, fee, now, strategy)),
       cash := b.cash - (quantity * price + fee),
       realizedPnl := b.realizedPnl - fee)
  }

  function Selling(b: Book, key: string, quantity: Positive, price: Positive, fee: NonNegative): Book
    requires quantity <= PositionOf(b, key).quantity
  {
    b.(positions := Put(b.positions, key, SoldDown(PositionOf(b, key), quantity, fee)),
       cash := b.cash + (quantity * price - fee),
       realizedPnl := b.realizedPnl + quantity * (price - PositionOf(b, key).averageCost) - fee)
  }

  /** A refused sell still leaves an empty position behind: it is created before the check. */
  function ApplyFill(b: Book, asset: string, side: Side, quantity: real, price: real, fee: real,
                     now: real, strategy: Option<string>): (Book, Option<BookError>)
  {
    if quantity <= 0.0 || price <= 0.0 then (b, Some(NonPositiveFill))
    else if fee < 0.0 then (b, Some(NegativeFee))
    else
      var key := Upper(asset);
      match side
      case Buy => (Settled(Buying(b, key, quantity, price, fee, now, strategy), key, price), None)
      case Sell =>
        if quantity > PositionOf(b, key).quantity then
          (b.(positions := Put(b.positions, key, PositionOf(b, key))), Some(ShortSale))
        else (Settled(Selling(b, key, quantity, price, fee), key, price), None)
  }

  // ----- the daily anchor and the snapshot -----

  function DayOf(now: real): int { (now / 86400.0).Floor }

  function RollDay(b: Book, now: real): (Book, bool) {
    var today := DayOf(now);
    if b.dayStartDate.None? then (b.(dayStartDate := Some(today)), false)
    else if b.dayStartDate.value == today then (b, false)
    else (b.(dayStartDate := Some(today), dayStartNav := Nav(b)), true)
  }

  datatype Held = Held(
    quantity: NonNegative, averageCost: NonNegative, exposure: NonNegative,
    openedAt: Option<real>, highWater: NonNegative, entryStrategy: Option<string>)

  datatype Snapshot = Snapshot(
    nav: Positive, cash: NonNegative, dailyPnl: real, peakNav: Positive,
    exposures: Dict<NonNegative>, observedAt: real, held: Dict<Held>)

  function Exposure(marks: Dict<Positive>, key: string, p: Position): NonNegative {
    p.quantity * MarkOr(marks, key, p)
  }

  function Exposures(ps: Dict<Position>, marks: Dict<Positive>): Dict<NonNegative> {
    if ps == [] then []
    else if ps[0].1.quantity > 0.0 then
      [(ps[0].0, Exposure(marks, ps[0].0, ps[0].1))] + Exposures(ps[1..], marks)
    else Exposures(ps[1..], marks)
  }

  function HeldOf(marks: Dict<Positive>, key: string, p: Position): Held {
    Held(p.quantity, p.averageCost, Exposure(marks, key, p), p.openedAt, p.highWater, p.entryStrategy)
  }

  function HeldPositions(ps: Dict<Position>, marks: Dict<Positive>): Dict<Held> {
    if ps == [] then []
    else if ps[0].1.quantity > 0.0 then
      [(ps[0].0, HeldOf(marks, ps[0].0, ps[0].1))] + HeldPositions(ps[1..], marks)
    else HeldPositions(ps[1..], marks)
  }

  /** The day rolls first; a book worth nothing has no valid snapshot. */
  function TakeSnapshot(b: Book, now: real): (Book, Option<Snapshot>) {
    var b' := RollDay(b, now).0;
    if Nav(b') <= 0.0 then (b', None)
    else (b', Some(Snapshot(Nav(b'), Max(0.0, b'.cash), Nav(b') - b'.dayStartNav, b'.peakNav,
                            Exposures(b'.positions, b'.marks), now, HeldPositions(b'.positions, b'.marks))))
  }

  // ----- restarts -----

  datatype BookState = BookState(
    startingNav: Positive, cash: real, peakNav: Positive, realizedPnl: real,
    positions: Dict<Position>, marks: Dict<Positive>,
    dayStartNav: Option<Positive>, dayStartDate: Option<int>)

  /** Saving refuses a daily anchor that is not positive. */
  function SaveBook(b: Book): Option<BookState> {
    if b.dayStartNav <= 0.0 then None
    else Some(BookState(b.startingNav, b.cash, b.peakNav, b.realizedPnl, b.positions, b.marks,
                        Some(b.dayStartNav), b.dayStartDate))
  }

  function LoadBook(s: BookState): Book {
    var b := Book(s.startingNav, s.cash, s.peakNav, s.realizedPnl,
                  Rekey(s.positions, Upper), Rekey(s.marks, Upper), 0.0, s.dayStartDate);
    b.(dayStartNav := if s.dayStartNav.Some? then s.dayStartNav.value else Nav(b))
  }

  /** A restart gives the same book back, whenever the checkpoint can be written at all. */
  lemma RestartIsIdentity(b: Book)
    requires Valid(b)
    ensures SaveBook(b).Some? <==> b.dayStartNav > 0.0
    ensures SaveBook(b).Some? ==> LoadBook(SaveBook(b).value) == b
  {
    RekeyFixed(b.positions, Upper);
    RekeyFixed(b.marks, Upper);
  }

  // ----- what every operation keeps -----

  ghost predicate CostFits(p: Position) {
    p.quantity > 0.0 <==> p.averageCost > 0.0
  }

  lemma HeldFits(b: Book, key: string)
    requires Valid(b)
    ensures CostFits(PositionOf(b, key))
  {
    if Get(b.positions, key).Some? {
      var i := GetIndex(b.positions, key);
    }
  }

  lemma StoredStaysValid(b: Book, key: string, p: Position)
    requires Valid(b) && Upper(key) == key && CostFits(p)
    ensures Valid(b.(positions := Put(b.positions, key, p)))
  {
    PutAt(b.positions, key, p);
    PutDistinct(b.positions, key, p);
  }

  /** Storing one position shifts the cost and fee totals by that position's own change. */
  lemma StoredTotals(b: Book, key: string, p: Position)
    ensures var d := Put(b.positions, key, p); var o := PositionOf(b, key);
            && Sum(d, COST) == Sum(b.positions, COST) + Cost(p) - Cost(o)
            && Sum(d, FEES) == Sum(b.positions, FEES) + p.feesPaid - o.feesPaid
  {
    SumPut(b.positions, key, p, COST);
    SumPut(b.positions, key, p, FEES);
  }

  lemma StoredAt(b: Book, key: string, p: Position, q: string)
    ensures PositionOf(b.(positions := Put(b.positions, key, p)), q) == if q == key then p else PositionOf(b, q)
  {
    GetPut(b.positions, key, p, q);
  }

  lemma MarkedStaysValid(b: Book, key: string, price: Positive)
    requires Upper(key) == key && Valid(b)
    ensures Valid(Marked(b, key, price))
  {
    PutAt(b.marks, key, price);
    PutDistinct(b.marks, key, price);
    HeldFits(b, key);
    var b1 := b.(marks := Put(b.marks, key, price));
    assert Valid(b1);
    var p := PositionOf(b, key);
    StoredStaysValid(b1, key, p.(highWater := Max(p.highWater, price)));
  }

  /** Marking moves no money, no quantity and no fee. */
  lemma MarkedKeeps(b: Book, key: string, price: Positive, q: string)
    ensures var b' := Marked(b, key, price);
            && Sum(b'.positions, COST) == Sum(b.positions, COST)
            && Sum(b'.positions, FEES) == Sum(b.positions, FEES)
            && PositionOf(b', q).quantity == PositionOf(b, q).quantity
  {
    var p := PositionOf(b, key);
    var p' := p.(highWater := Max(p.highWater, price));
    StoredTotals(b, key, p');
    StoredAt(b, key, p', q);
  }

  /** Every fill the book takes keeps it valid and keeps the cost identity: buys swap cash for
      inventory at cost, sells realize the difference, fees are realized at once. */
  lemma FillKeepsIdentity(b: Book, asset: string, side: Side, quantity: real, price: real, fee: real,
                          now: real, strategy: Option<string>)
    requires Valid(b) && CostIdentity(b)
    ensures var b' := ApplyFill(b, asset, side, quantity, price, fee, now, strategy).0;
            Valid(b') && CostIdentity(b')
  {
    if quantity > 0.0 && price > 0.0 && fee >= 0.0 {
      var key := Upper(asset);
      UpperIdempotent(asset);
      HeldFits(b, key);
      if side == Buy {
        BuyKeepsIdentity(b, key, quantity, price, fee, now, strategy);
        SettledKeepsIdentity(Buying(b, key, quantity, price, fee, now, strategy), key, price);
      } else if quantity <= PositionOf(b, key).quantity {
        SellKeepsIdentity(b, key, quantity, price, fee);
        SettledKeepsIdentity(Selling(b, key, quantity, price, fee), key, price);
      } else {
        StoredStaysValid(b, key, PositionOf(b, key));
        StoredTotals(b, key, PositionOf(b, key));
      }
    }
  }

  /** Replacing one position keeps the identity when its change in cost is what cash and realized PnL say. */
  lemma StoredKeepsIdentity(b: Book, b': Book, key: string, p: Position)
    requires CostIdentity(b) && b'.startingNav == b.startingNav && b'.positions == Put(b.positions, key, p)
    requires b'.cash - b.cash + Cost(p) - Cost(PositionOf(b, key)) == b'.realizedPnl - b.realizedPnl
    ensures CostIdentity(b')
  {
    StoredTotals(b, key, p);
  }

  lemma BoughtCost(o: Position, quantity: Positive, price: Positive, fee: NonNegative, now: real,
                   strategy: Option<string>)
    ensures var p := Bought(o, quantity, price, fee, now, strategy);
            CostFits(p) && Cost(p) == Cost(o) + quantity * price
  {
    var c := BlendedCost(o, quantity, price);
    assert c * (o.quantity + quantity) == (o.quantity + quantity) * c;
  }

  lemma SoldCost(o: Position, quantity: Positive, price: Positive, fee: NonNegative)
    requires quantity <= o.quantity && CostFits(o)
    ensures var p := SoldDown(o, quantity, fee);
            CostFits(p) && quantity * price + Cost(p) - Cost(o) == quantity * (price - o.averageCost)
  {
    Realized(o.quantity, quantity, o.averageCost, price);
  }

  lemma BuyKeepsIdentity(b: Book, key: string, quantity: Positive, price: Positive, fee: NonNegative,
                         now: real, strategy: Option<string>)
    requires Valid(b) && CostIdentity(b) && Upper(key) == key
    ensures var b' := Buying(b, key, quantity, price, fee, now, strategy); Valid(b') && CostIdentity(b')
  {
    var p := Bought(PositionOf(b, key), quantity, price, fee, now, strategy);
    BoughtCost(PositionOf(b, key), quantity, price, fee, now, strategy);
    StoredStaysValid(b, key, p);
    StoredKeepsIdentity(b, Buying(b, key, quantity, price, fee, now, strategy), key, p);
  }

  lemma SellKeepsIdentity(b: Book, key: string, quantity: Positive, price: Positive, fee: NonNegative)
    requires Valid(b) && CostIdentity(b) && Upper(key) == key && quantity <= PositionOf(b, key).quantity
    ensures var b' := Selling(b, key, quantity, price, fee); Valid(b') && CostIdentity(b')
  {
    HeldFits(b, key);
    var p := SoldDown(PositionOf(b, key), quantity, fee);
    SoldCost(PositionOf(b, key), quantity, price, fee);
    StoredStaysValid(b, key, p);
    StoredKeepsIdentity(b, Selling(b, key, quantity, price, fee), key, p);
  }

  lemma Realized(held: real, quantity: real, cost: real, price: real)
    ensures quantity * price + (held - quantity) * cost == held * cost + quantity * (price - cost)
  {
  }

  lemma SettledKeepsIdentity(b: Book, key: string, price: Positive)
    requires Valid(b) && CostIdentity(b) && Upper(key) == key
    ensures Valid(Settled(b, key, price)) && CostIdentity(Settled(b, key, price))
  {
    MarkedStaysValid(b, key, price);
    MarkedKeeps(b, key, price, key);
  }

  /** Cash and fees after a fill the book took, or after one it refused. */
  ghost predicate AccountsMove(b: Book, b': Book, side: Side, quantity: real, price: real, fee: real, taken: bool) {
    && b'.startingNav == b.startingNav
    && b'.cash == (if !taken then b.cash else b.cash - (if side == Buy then quantity * price
                                                        else -(quantity * price)) - fee)
    && Sum(b'.positions, FEES) == Sum(b.positions, FEES) + (if taken then fee else 0.0)
  }

  /** What a fill does to the accounts: all of it when the book takes it, nothing when it does not. */
  lemma FillEffect(b: Book, asset: string, side: Side, quantity: Positive, price: Positive, fee: NonNegative,
                   now: real, strategy: Option<string>, q: string)
    ensures var (b', e) := ApplyFill(b, asset, side, quantity, price, fee, now, strategy);
            && (e.None? <==> side == Buy || quantity <= PositionOf(b, Upper(asset)).quantity)
            && AccountsMove(b, b', side, quantity, price, fee, e.None?)
            && PositionOf(b', q).quantity == PositionOf(b, q).quantity
               + (if e.Some? || q != Upper(asset) then 0.0 else if side == Buy then quantity as real
                  else -(quantity as real))
  {
    var key := Upper(asset);
    var o := PositionOf(b, key);
    if side == Buy {
      var p := Bought(o, quantity, price, fee, now, strategy);
      StoredTotals(b, key, p);
      StoredAt(b, key, p, q);
      MarkedKeeps(Buying(b, key, quantity, price, fee, now, strategy), key, price, q);
    } else if quantity <= o.quantity {
      var p := SoldDown(o, quantity, fee);
      StoredTotals(b, key, p);
      StoredAt(b, key, p, q);
      MarkedKeeps(Selling(b, key, quantity, price, fee), key, price, q);
    } else {
      StoredTotals(b, key, o);
      StoredAt(b, key, o, q);
    }
  }

  /** A refused sell leaves the book as it was exactly when the asset has a position already, flat or
      not; otherwise an empty one is left behind, created before the check. */
  lemma RefusedSellLeavesATrace(b: Book, asset: string, quantity: Positive, price: Positive, fee: NonNegative,
                                now: real, strategy: Option<string>)
    requires quantity > PositionOf(b, Upper(asset)).quantity
    ensures var (b', e) := ApplyFill(b, asset, Sell, quantity, price, fee, now, strategy);
            && e == Some(ShortSale)
            && (b' == b <==> Get(b.positions, Upper(asset)).Some?)
            && (b' != b ==> b' == b.(positions := b.positions + [(Upper(asset), FLAT)]))
  {
    if Get(b.positions, Upper(asset)).Some? {
      PutStored(b.positions, Upper(asset));
    } else {
      PutAt(b.positions, Upper(asset), FLAT);
    }
  }

  /** After a fill the peak is no lower than before and no lower than the book's value. */
  lemma PeakCoversNav(b: Book, asset: string, side: Side, quantity: real, price: real, fee: real,
                      now: real, strategy: Option<string>)
    ensures var (b', e) := ApplyFill(b, asset, side, quantity, price, fee, now, strategy);
            b'.peakNav >= b.peakNav && (e.None? ==> b'.peakNav >= Nav(b'))
  {
    if quantity > 0.0 && price > 0.0 && fee >= 0.0 {
      var key := Upper(asset);
      if side == Buy {
        PeakAfter(Buying(b, key, quantity, price, fee, now, strategy), key, price);
      } else if quantity <= PositionOf(b, key).quantity {
        PeakAfter(Selling(b, key, quantity, price, fee), key, price);
      }
    }
  }

  lemma PeakAfter(b: Book, key: string, price: Positive)
    ensures Settled(b, key, price).peakNav >= b.peakNav
    ensures Settled(b, key, price).peakNav >= Nav(Settled(b, key, price))
  {
    var b' := Marked(b, key, price);
    assert Nav(b'.(peakNav := Max(b'.peakNav, Nav(b')))) == Nav(b');
  }

  // ----- what the snapshot shows -----

  lemma {:induction false} SnapshotEntry(ps: Dict<Position>, marks: Dict<Positive>, key: string)
    requires Distinct(ps)
    ensures Get(HeldPositions(ps, marks), key) ==
            match Get(ps, key)
            case Some(p) => (if p.quantity > 0.0 then Some(HeldOf(marks, key, p)) else None)
            case None => None
    ensures Get<NonNegative>(Exposures(ps, marks), key) ==
            match Get(ps, key)
            case Some(p) => (if p.quantity > 0.0 then Some(Exposure(marks, key, p)) else None)
            case None => None
  {
    if ps != [] {
      var rest := ps[1..];
      SnapshotEntry(rest, marks, key);
      if Get(rest, ps[0].0).Some? {
        var i := GetIndex(rest, ps[0].0);
        assert ps[i + 1] == rest[i];
      }
      if ps[0].1.quantity > 0.0 {
        assert HeldPositions(ps, marks)[1..] == HeldPositions(rest, marks);
        assert Exposures(ps, marks)[1..] == Exposures(rest, marks);
      }
    }
  }

  const AMOUNT := (key: string, x: NonNegative) => x as real

  /** Cash plus the exposures shown is the book's value. */
  lemma {:induction false} ExposuresSumToWorth(ps: Dict<Position>, marks: Dict<Positive>)
    ensures Sum<NonNegative>(Exposures(ps, marks), AMOUNT) == Sum(ps, Worth(marks))
  {
    if ps != [] {
      ExposuresSumToWorth(ps[1..], marks);
      if ps[0].1.quantity > 0.0 {
        assert Exposures(ps, marks)[1..] == Exposures(ps[1..], marks);
      }
    }
  }

  // ----- the object -----

  class InMemoryPortfolioBook {
    const startingNav: Positive
    var cash: real
    var peakNav: Positive
    var realizedPnl: real
    var positions: Dict<Position>
    var marks: Dict<Positive>
    var dayStartNav: real
    var dayStartDate: Option<int>

    ghost function Value(): Book
      reads this
    {
      Book(startingNav, cash, peakNav, realizedPnl, positions, marks, dayStartNav, dayStartDate)
    }

    constructor (startingNav: Positive)
      ensures Value() == Opening(startingNav)
    {
      this.startingNav := startingNav;
      cash, peakNav, realizedPnl := startingNav, startingNav, 0.0;
      positions, marks := [], [];
      dayStartNav, dayStartDate := startingNav, None;
    }

    constructor Load(s: BookState)
      ensures Value() == LoadBook(s)
    {
      startingNav, cash, peakNav, realizedPnl := s.startingNav, s.cash, s.peakNav, s.realizedPnl;
      positions, marks := Rekey(s.positions, Upper), Rekey(s.marks, Upper);
      dayStartNav, dayStartDate := 0.0, s.dayStartDate;
      new;
      if s.dayStartNav.Some? {
        dayStartNav := s.dayStartNav.value;
      } else {
        dayStartNav := NavUsd();
      }
    }

    method NavUsd() returns (nav: real)
      ensures nav == Nav(Value())
    {
      var worth := 0.0;
      var i := 0;
      while i < |positions|
        invariant 0 <= i <= |positions|
        invariant worth + Sum(positions[i..], Worth(marks)) == Sum(positions, Worth(marks))
      {
        var (asset, position) := positions[i];
        worth := worth + position.quantity * MarkOr(marks, asset, position);
        i := i + 1;
      }
      return cash + worth;
    }

    method MarkAsset(asset: string, price: real) returns (e: Option<BookError>)
      modifies this
      ensures (Value(), e) == Mark(old(Value()), asset, price)
    {
      if price <= 0.0 {
        return Some(NonPositiveMark);
      }
      var key := Upper(asset);
      marks := Put<Positive>(marks, key, price);
      var position := Get(positions, key);
      if position.Some? && position.value.quantity > 0.0 {
        positions := Put(positions, key, position.value.(highWater := Max(position.value.highWater, price)));
      }
      return None;
    }

    method Buy(key: string, quantity: Positive, price: Positive, fee: NonNegative, now: real, strategy: Option<string>)
      modifies this
      ensures Value() == Buying(old(Value()), key, quantity, price, fee, now, strategy)
    {
      var position := match Get(positions, key) case Some(p) => p case None => FLAT;
      var opening := position.quantity == 0.0;
      position := position.(averageCost := BlendedCost(position, quantity, price));
      position := position.(quantity := position.quantity + quantity);
      cash := cash - (quantity * price + fee);
      realizedPnl := realizedPnl - fee;
      if opening {
        position := position.(openedAt := Some(now), highWater := price);
        if strategy.Some? {
          position := position.(entryStrategy := strategy);
        }
      } else {
        position := position.(highWater := Max(position.highWater, price));
      }
      positions := Put(positions, key, position.(feesPaid := position.feesPaid + fee));
    }

    method Sell(key: string, quantity: Positive, price: Positive, fee: NonNegative)
      requires quantity <= PositionOf(Value(), key).quantity
      modifies this
      ensures Value() == Selling(old(Value()), key, quantity, price, fee)
    {
      var position := match Get(positions, key) case Some(p) => p case None => FLAT;
      cash := cash + (quantity * price - fee);
      realizedPnl := realizedPnl + quantity * (price - position.averageCost) - fee;
      position := position.(quantity := position.quantity - quantity);
      if position.quantity == 0.0 {
        position := position.(averageCost := 0.0, openedAt := None, highWater := 0.0, entryStrategy := None);
      }
      positions := Put(positions, key, position.(feesPaid := position.feesPaid + fee));
    }

    method Fill(asset: string, side: Side, quantity: real, price: real, fee: real, now: real, strategy: Option<string>)
      returns (e: Option<BookError>)
      modifies this
      ensures (Value(), e) == ApplyFill(old(Value()), asset, side, quantity, price, fee, now, strategy)
    {
      if quantity <= 0.0 || price <= 0.0 {
        return Some(NonPositiveFill);
      }
      if fee < 0.0 {
        return Some(NegativeFee);
      }
      var key := Upper(asset);
      if side.Buy? {
        Buy(key, quantity, price, fee, now, strategy);
      } else {
        var held := match Get(positions, key) case Some(p) => p case None => FLAT;
        if quantity > held.quantity {
          positions := Put(positions, key, held);
          return Some(ShortSale);
        }
        Sell(key, quantity, price, fee);
      }
      UpperIdempotent(asset);
      Settle(key, price);
      return None;
    }

    method Settle(key: string, price: Positive)
      requires Upper(key) == key
      modifies this
      ensures Value() == Settled(old(Value()), key, price)
    {
      var refused := MarkAsset(key, price);
      var nav := NavUsd();
      peakNav := Max(peakNav, nav);
    }

    method Roll(now: real) returns (rolled: bool)
      modifies this
      ensures (Value(), rolled) == RollDay(old(Value()), now)
    {
      var today := DayOf(now);
      if dayStartDate.None? {
        dayStartDate := Some(today);
        return false;
      }
      if dayStartDate.value == today {
        return false;
      }
      dayStartDate := Some(today);
      dayStartNav := NavUsd();
      return true;
    }

    method Observe(now: real) returns (s: Option<Snapshot>)
      modifies this
      ensures (Value(), s) == TakeSnapshot(old(Value()), now)
    {
      var _ := Roll(now);
      var nav := NavUsd();
      if nav <= 0.0 {
        return None;
      }
      return Some(Snapshot(nav, Max(0.0, cash), nav - dayStartNav, peakNav,
                           Exposures(positions, marks), now, HeldPositions(positions, marks)));
    }
  }
}
