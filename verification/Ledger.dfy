/** The execution ledger: orders, their lifecycle, and the set of fills already booked.
    `Ledger` is the value; `ExecutionLedger` is the object that updates it in place. */
module Ledgers {
  import opened Common
  import opened Dictionary
  import Sorting

  // ----- lifecycle -----

  datatype Lifecycle =
    | Planned | Submitted | SubmissionUncertain | Acknowledged | Open
    | PartiallyFilled | Filled | Cancelled | Rejected | Expired

  const TERMINAL: set<Lifecycle> := {Filled, Cancelled, Rejected, Expired}

  const CLOSING: set<Lifecycle> := {PartiallyFilled, Filled, Cancelled, Rejected, Expired}

  /** The transition table, row by row. */
  function Allowed(s: Lifecycle): set<Lifecycle> {
    match s
    case Planned => {Submitted, SubmissionUncertain, Acknowledged, Open} + CLOSING
    case Submitted => {SubmissionUncertain, Acknowledged, Open} + CLOSING
    case SubmissionUncertain => {Submitted, Acknowledged, Open} + CLOSING
    case Acknowledged => {Open} + CLOSING
    case Open => CLOSING
    case PartiallyFilled => TERMINAL
    case Filled => {}
    case Cancelled => {}
    case Rejected => {}
    case Expired => {}
  }

  predicate IsLegalTransition(current: Lifecycle, requested: Lifecycle) {
    current == requested || requested in Allowed(current)
  }

  /** How far along an order is; the two submission states are equally far. */
  function Rank(s: Lifecycle): nat {
    match s
    case Planned => 0
    case Submitted => 1
    case SubmissionUncertain => 1
    case Acknowledged => 2
    case Open => 3
    case PartiallyFilled => 4
    case _ => 5
  }

  /** The table is exactly: stay, or leave a non-terminal state for a later one, with the two
      submission states interchangeable. */
  lemma TransitionsAreForward(a: Lifecycle, b: Lifecycle)
    ensures IsLegalTransition(a, b) <==>
            a == b || (a !in TERMINAL && (Rank(a) < Rank(b) || Rank(a) == 1 == Rank(b)))
  {
    match a {
      case Planned => match b { case _ => }
      case _ => match b { case _ => }
    }
  }

  // ----- data -----

  datatype FeeSource = Venue | Modelled | Mixed

  datatype Fill = Fill(
    fillId: string, orderId: string, asset: string, side: Side,
    quantity: Positive, priceUsd: Positive, feeUsd: NonNegative, feeSource: FeeSource)
  {
    function Notional(): real { quantity * priceUsd }
  }

  datatype Order = Order(
    orderId: string, decisionId: string, asset: string, side: Side, requestedQuantity: Positive,
    state: Lifecycle, filledQuantity: NonNegative, averagePrice: Option<Positive>,
    clientOrderId: Option<string>, venueOrderId: Option<string>,
    feesPaid: NonNegative, feeSource: Option<FeeSource>)
  {
    /** Money the fills of this order moved, at their average price. */
    function Notional(): real {
      if averagePrice.Some? then averagePrice.value * filledQuantity else 0.0
    }
  }

  /** An order nothing has filled yet, as every caller registers it. */
  predicate Fresh(o: Order) {
    o.filledQuantity == 0.0 && o.averagePrice.None? && o.feesPaid == 0.0 && o.feeSource.None?
  }

  datatype Ledger = Ledger(orders: Dict<Order>, processed: set<string>)

  const EMPTY := Ledger([], {})

  datatype LedgerError =
    | ConflictingOrder | UnknownOrder | OrphanFill | FillMismatch | Overfill | IllegalTransition

  datatype Result<T> = Ok(value: T) | Err(error: LedgerError)

  ghost predicate Valid(l: Ledger) {
    Distinct(l.orders) && forall i :: 0 <= i < |l.orders| ==> l.orders[i].0 == l.orders[i].1.orderId
  }

  // ----- lookups -----

  function FirstWithAlias(orders: Dict<Order>, id: string): Option<Order> {
    if orders == [] then None
    else if orders[0].1.venueOrderId == Some(id) || orders[0].1.clientOrderId == Some(id) then
      Some(orders[0].1)
    else FirstWithAlias(orders[1..], id)
  }

  /** Ledger key first, then the first order carrying the id as venue or client id. */
  function FindOrder(l: Ledger, id: string): Option<Order> {
    if Get(l.orders, id).Some? then Get(l.orders, id) else FirstWithAlias(l.orders, id)
  }

  function OrdersForDecision(orders: Dict<Order>, decisionId: string): seq<Order> {
    if orders == [] then []
    else (if orders[0].1.decisionId == decisionId then [orders[0].1] else [])
         + OrdersForDecision(orders[1..], decisionId)
  }

  /** Whatever is found is in the ledger under its own key. */
  lemma FoundIsStored(l: Ledger, id: string)
    requires Valid(l) && FindOrder(l, id).Some?
    ensures var o := FindOrder(l, id).value; Get(l.orders, o.orderId) == Some(o)
  {
    if Get(l.orders, id).Some? {
      var i := GetIndex(l.orders, id);
    } else {
      var i := AliasIndex(l.orders, id);
      GetAt(l.orders, i);
    }
  }

  lemma {:induction false} AliasIndex(orders: Dict<Order>, id: string) returns (i: nat)
    requires FirstWithAlias(orders, id).Some?
    ensures i < |orders| && orders[i].1 == FirstWithAlias(orders, id).value
  {
    if orders[0].1.venueOrderId == Some(id) || orders[0].1.clientOrderId == Some(id) {
      i := 0;
    } else {
      i := AliasIndex(orders[1..], id);
      i := i + 1;
    }
  }

  // ----- operations on values -----

  function RegisterOrder(l: Ledger, o: Order): Result<Ledger> {
    var existing := Get(l.orders, o.orderId);
    if existing.Some? && existing.value != o then Err(ConflictingOrder)
    else Ok(l.(orders := Put(l.orders, o.orderId, o)))
  }

  function UpdateOrderState(l: Ledger, id: string, s: Lifecycle): Result<Ledger> {
    var found := FindOrder(l, id);
    if found.None? then Err(UnknownOrder)
    else if !IsLegalTransition(found.value.state, s) then Err(IllegalTransition)
    else Ok(l.(orders := Put(l.orders, found.value.orderId, found.value.(state := s))))
  }

  /** The quantity-weighted price once one more fill is in. */
  function AverageWith(o: Order, f: Fill): (p: Positive)
    ensures p * (o.filledQuantity + f.quantity) == o.Notional() + f.Notional()
  {
    QuotientPositive(o.Notional() + f.Notional(), o.filledQuantity + f.quantity);
    (o.Notional() + f.Notional()) / (o.filledQuantity + f.quantity)
  }

  function NextState(o: Order, f: Fill, tol: real): Lifecycle {
    if Abs(o.filledQuantity + f.quantity - o.requestedQuantity) <= tol then Filled else PartiallyFilled
  }

  /** The order after one more fill: running quantity, quantity-weighted price, fees. */
  function WithFill(o: Order, f: Fill, tol: real): (r: Order)
    ensures r.Notional() == o.Notional() + f.Notional()
  {
    o.(state := NextState(o, f, tol),
       filledQuantity := o.filledQuantity + f.quantity,
       averagePrice := Some(AverageWith(o, f)),
       feesPaid := o.feesPaid + f.feeUsd,
       feeSource := Some(if o.feeSource.None? then f.feeSource
                         else if o.feeSource.value == f.feeSource then f.feeSource
                         else Mixed))
  }

  /** `false` means the fill id was already processed; every refusal leaves the ledger alone. */
  function RecordFill(l: Ledger, f: Fill, tol: real): Result<(Ledger, bool)> {
    if f.fillId in l.processed then Ok((l, false))
    else
      var found := FindOrder(l, f.orderId);
      if found.None? then Err(OrphanFill)
      else
        var o := found.value;
        if Upper(f.asset) != Upper(o.asset) || f.side != o.side then Err(FillMismatch)
        else if o.filledQuantity + f.quantity > o.requestedQuantity + tol then Err(Overfill)
        else
          var updated := WithFill(o, f, tol);
          if !IsLegalTransition(o.state, updated.state) then Err(IllegalTransition)
          else Ok((Ledger(Put(l.orders, o.orderId, updated), l.processed + {f.fillId}), true))
  }

  // ----- restarts -----

  /** The serialised ledger: the processed ids as a list. */
  datatype LedgerState = LedgerState(orders: Dict<Order>, processedIds: seq<string>)

  function FromState(s: LedgerState): Ledger {
    Ledger(s.orders, set id | id in s.processedIds)
  }

  /** Code point order of strings. */
  predicate Lexical(a: string, b: string) {
    a == [] || (b != [] && (a[0] < b[0] || (a[0] == b[0] && Lexical(a[1..], b[1..]))))
  }

  lemma {:induction false} LexicalEither(a: string, b: string)
    ensures Lexical(a, b) || Lexical(b, a)
  {
    if a != [] && b != [] {
      LexicalEither(a[1..], b[1..]);
    }
  }

  lemma {:induction false} LexicalChains(a: string, b: string, c: string)
    requires Lexical(a, b) && Lexical(b, c)
    ensures Lexical(a, c)
  {
    if a != [] && a[0] == b[0] == c[0] {
      LexicalChains(a[1..], b[1..], c[1..]);
    }
  }

  lemma LexicalIsTotal()
    ensures Sorting.Total(Lexical)
  {
    forall a: string, b: string
      ensures Lexical(a, b) || Lexical(b, a)
    {
      LexicalEither(a, b);
    }
    forall a: string, b: string, c: string | Lexical(a, b) && Lexical(b, c)
      ensures Lexical(a, c)
    {
      LexicalChains(a, b, c);
    }
  }

  /** The orders as they are and the processed ids, each once, sorted. */
  ghost predicate IsStateOf(s: LedgerState, l: Ledger) {
    && s.orders == l.orders
    && |s.processedIds| == |l.processed| && Sorting.Sorted(s.processedIds, Lexical)
    && forall id :: id in s.processedIds <==> id in l.processed
  }

  // ----- runs -----

  datatype Event =
    | Register(order: Order)
    | Update(id: string, state: Lifecycle)
    | Record(fill: Fill)
    | Restart(saved: LedgerState)

  /** One call; a refused call leaves the ledger as it was. A restart loads what was saved. */
  ghost function Step(l: Ledger, e: Event, tol: real): Ledger {
    match e
    case Register(o) => (match RegisterOrder(l, o) case Ok(l') => l' case Err(_) => l)
    case Update(id, s) => (match UpdateOrderState(l, id, s) case Ok(l') => l' case Err(_) => l)
    case Record(f) => (match RecordFill(l, f, tol) case Ok(p) => p.0 case Err(_) => l)
    case Restart(s) => if IsStateOf(s, l) then FromState(s) else l
  }

  ghost function Run(l: Ledger, es: seq<Event>, tol: real): Ledger {
    if es == [] then l else Step(Run(l, es[..|es| - 1], tol), es[|es| - 1], tol)
  }

  /** The fill this call books, with the key of the order it lands on. */
  ghost function Booked(l: Ledger, e: Event, tol: real): seq<(string, Fill)> {
    if e.Record? && RecordFill(l, e.fill, tol).Ok? && RecordFill(l, e.fill, tol).value.1 then
      [(FindOrder(l, e.fill.orderId).value.orderId, e.fill)]
    else []
  }

  ghost function Log(l: Ledger, es: seq<Event>, tol: real): seq<(string, Fill)> {
    if es == [] then []
    else
      var front := es[..|es| - 1];
      Log(l, front, tol) + Booked(Run(l, front, tol), es[|es| - 1], tol)
  }

  // ----- lifecycle over every run -----

  /** What an order may become: later in its life, same identity, and never touched again
      once the venue closed it unfilled. */
  ghost predicate Progress(o: Order, o': Order) {
    && o'.orderId == o.orderId && o'.decisionId == o.decisionId && o'.asset == o.asset
    && o'.side == o.side && o'.requestedQuantity == o.requestedQuantity
    && o'.clientOrderId == o.clientOrderId && o'.venueOrderId == o.venueOrderId
    && Rank(o.state) <= Rank(o'.state)
    && (o.state in TERMINAL ==> o'.state == o.state)
    && (o.state in {Cancelled, Rejected, Expired} ==> o' == o)
    && o.filledQuantity <= o'.filledQuantity && o.feesPaid <= o'.feesPaid
  }

  ghost predicate Evolved(l: Ledger, l': Ledger) {
    && l.processed <= l'.processed
    && |l.orders| <= |l'.orders|
    && forall i :: 0 <= i < |l.orders| ==> Progress(l.orders[i].1, l'.orders[i].1)
  }

  /** Replacing a stored order by a later version of itself evolves the ledger. */
  lemma StoreEvolves(l: Ledger, o: Order, o': Order)
    requires Valid(l) && Get(l.orders, o.orderId) == Some(o) && Progress(o, o')
    ensures Valid(l.(orders := Put(l.orders, o.orderId, o')))
    ensures Evolved(l, l.(orders := Put(l.orders, o.orderId, o')))
  {
    Replaced(l, o');
  }

  lemma FillProgress(l: Ledger, f: Fill, tol: real)
    requires Valid(l) && Booked(l, Record(f), tol) != []
    ensures var o := FindOrder(l, f.orderId).value;
            && Get(l.orders, o.orderId) == Some(o)
            && Progress(o, WithFill(o, f, tol))
            && Step(l, Record(f), tol) == Ledger(Put(l.orders, o.orderId, WithFill(o, f, tol)),
                                                 l.processed + {f.fillId})
  {
    var o := FindOrder(l, f.orderId).value;
    FoundIsStored(l, f.orderId);
    TransitionsAreForward(o.state, WithFill(o, f, tol).state);
  }

  lemma StepEvolves(l: Ledger, e: Event, tol: real)
    requires Valid(l)
    ensures Valid(Step(l, e, tol)) && Evolved(l, Step(l, e, tol))
  {
    match e {
      case Register(o) =>
        Replaced(l, o);
      case Update(id, s) =>
        if FindOrder(l, id).Some? {
          var o := FindOrder(l, id).value;
          FoundIsStored(l, id);
          TransitionsAreForward(o.state, s);
          if IsLegalTransition(o.state, s) {
            StoreEvolves(l, o, o.(state := s));
          }
        }
      case Record(f) =>
        if Booked(l, e, tol) != [] {
          FillProgress(l, f, tol);
          var o := FindOrder(l, f.orderId).value;
          StoreEvolves(l, o, WithFill(o, f, tol));
        }
      case Restart(s) =>
    }
  }

  /** Storing an order under its own key touches only that key's entry. */
  lemma Replaced(l: Ledger, o: Order)
    requires Valid(l)
    ensures Valid(l.(orders := Put(l.orders, o.orderId, o)))
    ensures var d := Put(l.orders, o.orderId, o);
            && |l.orders| <= |d|
            && forall i :: 0 <= i < |l.orders| ==>
                 d[i] == l.orders[i] || (d[i].1 == o && Get(l.orders, o.orderId) == Some(l.orders[i].1))
  {
    PutAt(l.orders, o.orderId, o);
    PutDistinct(l.orders, o.orderId, o);
    forall i | 0 <= i < |l.orders|
      ensures Get(l.orders, l.orders[i].0) == Some(l.orders[i].1)
    {
      GetAt(l.orders, i);
    }
  }

  /** Over every run: ranks never fall, an acknowledged order is never uncertain again, a closed
      order keeps its state, and one closed unfilled never changes at all. */
  lemma {:induction false} LifecycleOverEveryRun(l: Ledger, es: seq<Event>, tol: real)
    requires Valid(l)
    ensures Valid(Run(l, es, tol)) && Evolved(l, Run(l, es, tol))
    ensures forall i :: 0 <= i < |l.orders| && l.orders[i].1.state !in {Planned, Submitted, SubmissionUncertain} ==>
              Run(l, es, tol).orders[i].1.state !in {Planned, Submitted, SubmissionUncertain}
  {
    if es != [] {
      var front := es[..|es| - 1];
      LifecycleOverEveryRun(l, front, tol);
      StepEvolves(Run(l, front, tol), es[|es| - 1], tol);
    }
  }

  /** A fill id seen before changes nothing, whatever happened in between. */
  lemma ReplayedFillIsANoOp(l: Ledger, f: Fill, es: seq<Event>, g: Fill, tol: real)
    requires Valid(l) && f.fillId in l.processed && g.fillId == f.fillId
    ensures Step(Run(l, es, tol), Record(g), tol) == Run(l, es, tol)
  {
    LifecycleOverEveryRun(l, es, tol);
  }

  // ----- accounts over every run -----

  ghost function Total(log: seq<(string, Fill)>, k: string, g: Fill -> real): real {
    if log == [] then 0.0
    else
      var last := log[|log| - 1];
      Total(log[..|log| - 1], k, g) + (if last.0 == k then g(last.1) else 0.0)
  }

  ghost const QUANTITY := (f: Fill) => f.quantity as real
  ghost const MONEY := (f: Fill) => f.Notional()
  ghost const FEE := (f: Fill) => f.feeUsd as real

  /** An order's running totals are the totals of the fills booked on it. */
  ghost predicate Accounted(o: Order, log: seq<(string, Fill)>, tol: real) {
    && o.filledQuantity == Total(log, o.orderId, QUANTITY)
    && o.Notional() == Total(log, o.orderId, MONEY)
    && o.feesPaid == Total(log, o.orderId, FEE)
    && o.filledQuantity <= o.requestedQuantity + tol
  }

  ghost predicate AllAccounted(l: Ledger, log: seq<(string, Fill)>, tol: real) {
    && (forall i :: 0 <= i < |l.orders| ==> Accounted(l.orders[i].1, log, tol))
    && (forall j :: 0 <= j < |log| ==> Get(l.orders, log[j].0).Some?)
    && (forall id :: id in l.processed <==> exists j :: 0 <= j < |log| && log[j].1.fillId == id)
    && (forall i, j :: 0 <= i < j < |log| ==> log[i].1.fillId != log[j].1.fillId)
  }

  lemma {:induction false} TotalAbsent(log: seq<(string, Fill)>, k: string, g: Fill -> real)
    requires forall j :: 0 <= j < |log| ==> log[j].0 != k
    ensures Total(log, k, g) == 0.0
  {
    if log != [] {
      TotalAbsent(log[..|log| - 1], k, g);
    }
  }

  lemma TotalAppend(log: seq<(string, Fill)>, e: (string, Fill), k: string, g: Fill -> real)
    ensures Total(log + [e], k, g) == Total(log, k, g) + (if e.0 == k then g(e.1) else 0.0)
  {
    assert (log + [e])[..|log|] == log;
  }

  lemma StoredKeepsAccounts(l: Ledger, o: Order, log: seq<(string, Fill)>, tol: real)
    requires Valid(l) && AllAccounted(l, log, tol) && Accounted(o, log, tol)
    ensures AllAccounted(l.(orders := Put(l.orders, o.orderId, o)), log, tol)
  {
    Replaced(l, o);
    PutAt(l.orders, o.orderId, o);
    forall j | 0 <= j < |log|
      ensures Get(Put(l.orders, o.orderId, o), log[j].0).Some?
    {
      GetPut(l.orders, o.orderId, o, log[j].0);
    }
  }

  lemma RegisterKeepsAccounts(l: Ledger, o: Order, log: seq<(string, Fill)>, tol: real)
    requires Valid(l) && tol >= 0.0 && AllAccounted(l, log, tol) && Fresh(o)
    ensures AllAccounted(Step(l, Register(o), tol), log, tol)
  {
    if Get(l.orders, o.orderId).None? {
      TotalAbsent(log, o.orderId, QUANTITY);
      TotalAbsent(log, o.orderId, MONEY);
      TotalAbsent(log, o.orderId, FEE);
      StoredKeepsAccounts(l, o, log, tol);
    } else if Get(l.orders, o.orderId).value == o {
      var i := GetIndex(l.orders, o.orderId);
      StoredKeepsAccounts(l, o, log, tol);
    }
  }

  lemma FilledIsAccounted(o: Order, f: Fill, log: seq<(string, Fill)>, tol: real)
    requires Accounted(o, log, tol) && o.filledQuantity + f.quantity <= o.requestedQuantity + tol
    ensures Accounted(WithFill(o, f, tol), log + [(o.orderId, f)], tol)
  {
    var e := (o.orderId, f);
    TotalAppend(log, e, o.orderId, QUANTITY);
    TotalAppend(log, e, o.orderId, MONEY);
    TotalAppend(log, e, o.orderId, FEE);
  }

  lemma OthersStayAccounted(o: Order, e: (string, Fill), log: seq<(string, Fill)>, tol: real)
    requires Accounted(o, log, tol) && e.0 != o.orderId
    ensures Accounted(o, log + [e], tol)
  {
    TotalAppend(log, e, o.orderId, QUANTITY);
    TotalAppend(log, e, o.orderId, MONEY);
    TotalAppend(log, e, o.orderId, FEE);
  }

  /** Replacing one order while its fill joins the log keeps every account. */
  lemma StoredWithFill(l: Ledger, o: Order, f: Fill, log: seq<(string, Fill)>, tol: real)
    requires Valid(l) && AllAccounted(l, log, tol) && f.fillId !in l.processed
    requires Accounted(o, log + [(o.orderId, f)], tol)
    ensures AllAccounted(Ledger(Put(l.orders, o.orderId, o), l.processed + {f.fillId}), log + [(o.orderId, f)], tol)
  {
    var e := (o.orderId, f);
    var d := Put(l.orders, o.orderId, o);
    Replaced(l, o);
    PutAt(l.orders, o.orderId, o);
    forall i | 0 <= i < |d|
      ensures Accounted(d[i].1, log + [e], tol)
    {
      if d[i] != (o.orderId, o) {
        OtherEntry(l.orders, o.orderId, o, i);
        OthersStayAccounted(d[i].1, e, log, tol);
      }
    }
    forall j | 0 <= j < |log + [e]|
      ensures Get(d, (log + [e])[j].0).Some?
    {
      GetPut(l.orders, o.orderId, o, (log + [e])[j].0);
    }
    LogIds(l, f, o.orderId, log);
  }

  lemma LogIds(l: Ledger, f: Fill, k: string, log: seq<(string, Fill)>)
    requires forall id :: id in l.processed <==> exists j :: 0 <= j < |log| && log[j].1.fillId == id
    ensures forall id :: id in l.processed + {f.fillId} <==>
              exists j :: 0 <= j < |log + [(k, f)]| && (log + [(k, f)])[j].1.fillId == id
  {
    var log' := log + [(k, f)];
    forall id | id in l.processed + {f.fillId}
      ensures exists j :: 0 <= j < |log'| && log'[j].1.fillId == id
    {
      if id == f.fillId {
        assert log'[|log|].1.fillId == id;
      } else {
        var j :| 0 <= j < |log| && log[j].1.fillId == id;
        assert log'[j].1.fillId == id;
      }
    }
    forall j | 0 <= j < |log'|
      ensures log'[j].1.fillId in l.processed + {f.fillId}
    {
      if j < |log| {
        assert log'[j] == log[j];
      }
    }
  }

  lemma FillKeepsAccounts(l: Ledger, f: Fill, log: seq<(string, Fill)>, tol: real)
    requires Valid(l) && AllAccounted(l, log, tol) && Booked(l, Record(f), tol) != []
    ensures AllAccounted(Step(l, Record(f), tol), log + Booked(l, Record(f), tol), tol)
  {
    var o := FindOrder(l, f.orderId).value;
    FillProgress(l, f, tol);
    var i := GetIndex(l.orders, o.orderId);
    FilledIsAccounted(o, f, log, tol);
    StoredWithFill(l, WithFill(o, f, tol), f, log, tol);
  }

  lemma UpdateKeepsAccounts(l: Ledger, id: string, s: Lifecycle, log: seq<(string, Fill)>, tol: real)
    requires Valid(l) && AllAccounted(l, log, tol)
    ensures AllAccounted(Step(l, Update(id, s), tol), log, tol)
  {
    if UpdateOrderState(l, id, s).Ok? {
      var o := FindOrder(l, id).value;
      FoundIsStored(l, id);
      var i := GetIndex(l.orders, o.orderId);
      StoredKeepsAccounts(l, o.(state := s), log, tol);
    }
  }

  lemma OtherEntry(d: Dict<Order>, k: string, v: Order, i: nat)
    requires Distinct(d) && i < |Put(d, k, v)| && Put(d, k, v)[i] != (k, v)
    ensures Put(d, k, v)[i].0 != k
  {
    PutAt(d, k, v);
    PutDistinct(d, k, v);
    if Put(d, k, v)[i].0 == k {
      GetPut(d, k, v, k);
      GetAt(Put(d, k, v), i);
    }
  }

  lemma StepKeepsAccounts(l: Ledger, e: Event, log: seq<(string, Fill)>, tol: real)
    requires Valid(l) && tol >= 0.0 && AllAccounted(l, log, tol)
    requires e.Register? ==> Fresh(e.order)
    ensures AllAccounted(Step(l, e, tol), log + Booked(l, e, tol), tol)
  {
    if Booked(l, e, tol) == [] {
      assert log + Booked(l, e, tol) == log;
      UnbookedKeepsAccounts(l, e, log, tol);
    } else {
      FillKeepsAccounts(l, e.fill, log, tol);
    }
  }

  lemma UnbookedKeepsAccounts(l: Ledger, e: Event, log: seq<(string, Fill)>, tol: real)
    requires Valid(l) && tol >= 0.0 && AllAccounted(l, log, tol) && Booked(l, e, tol) == []
    requires e.Register? ==> Fresh(e.order)
    ensures AllAccounted(Step(l, e, tol), log, tol)
  {
    match e {
      case Register(o) =>
        RegisterKeepsAccounts(l, o, log, tol);
      case Update(id, s) =>
        UpdateKeepsAccounts(l, id, s, log, tol);
      case Record(f) =>
        assert Step(l, e, tol) == l;
      case Restart(s) =>
        assert Step(l, e, tol) == l;
    }
  }

  /** Over every run from an empty ledger: an order's filled quantity, average price times
      quantity, and fees are the sums over the fills booked on it; it is never filled past its
      requested quantity; and no fill id is booked twice. */
  lemma {:induction false} AccountsOverEveryRun(es: seq<Event>, tol: real)
    requires tol >= 0.0
    requires forall i :: 0 <= i < |es| && es[i].Register? ==> Fresh(es[i].order)
    ensures AllAccounted(Run(EMPTY, es, tol), Log(EMPTY, es, tol), tol)
  {
    if es != [] {
      var front, e := es[..|es| - 1], es[|es| - 1];
      var l, log := Run(EMPTY, front, tol), Log(EMPTY, front, tol);
      AccountsOverEveryRun(front, tol);
      LifecycleOverEveryRun(EMPTY, front, tol);
      StepKeepsAccounts(l, e, log, tol);
    }
  }

  // ----- the object -----

  class ExecutionLedger {
    var orders: Dict<Order>
    var processed: set<string>
    const tolerance: NonNegative

    ghost function Value(): Ledger
      reads this
    {
      Ledger(orders, processed)
    }

    constructor (tolerance: NonNegative)
      ensures Value() == EMPTY && this.tolerance == tolerance
    {
      orders, processed := [], {};
      this.tolerance := tolerance;
    }

    constructor Load(s: LedgerState, tolerance: NonNegative)
      ensures Value() == FromState(s) && this.tolerance == tolerance
    {
      orders, processed := s.orders, set id | id in s.processedIds;
      this.tolerance := tolerance;
    }

    method Save() returns (s: LedgerState)
      ensures IsStateOf(s, Value()) && FromState(s) == Value()
    {
      var ids, rest := [], processed;
      while rest != {}
        invariant |ids| + |rest| == |processed|
        invariant forall id :: id in processed <==> id in ids || id in rest
        invariant forall id :: id in ids ==> id in processed
        decreases rest
      {
        var id :| id in rest;
        ids, rest := ids + [id], rest - {id};
      }
      LexicalIsTotal();
      Sorting.SortSorts(ids, Lexical);
      Sorting.SortKeeps(ids, Lexical);
      s := LedgerState(orders, Sorting.Sort(ids, Lexical));
    }

    method Find(id: string) returns (o: Option<Order>)
      ensures o == FindOrder(Value(), id)
    {
      o := Get(orders, id);
      if o.Some? {
        return;
      }
      var i := 0;
      while i < |orders|
        invariant 0 <= i <= |orders|
        invariant FirstWithAlias(orders, id) == FirstWithAlias(orders[i..], id)
      {
        if orders[i].1.venueOrderId == Some(id) || orders[i].1.clientOrderId == Some(id) {
          return Some(orders[i].1);
        }
        i := i + 1;
      }
      return None;
    }

    method Register(o: Order) returns (e: Option<LedgerError>)
      modifies this
      ensures RegisterOrder(old(Value()), o) == if e.None? then Ok(Value()) else Err(e.value)
      ensures e.Some? ==> Value() == old(Value())
    {
      var existing := Get(orders, o.orderId);
      if existing.Some? && existing.value != o {
        return Some(ConflictingOrder);
      }
      orders := Put(orders, o.orderId, o);
      return None;
    }

    method UpdateState(id: string, s: Lifecycle) returns (e: Option<LedgerError>)
      modifies this
      ensures UpdateOrderState(old(Value()), id, s) == if e.None? then Ok(Value()) else Err(e.value)
      ensures e.Some? ==> Value() == old(Value())
    {
      var found := Find(id);
      if found.None? {
        return Some(UnknownOrder);
      }
      if !IsLegalTransition(found.value.state, s) {
        return Some(IllegalTransition);
      }
      orders := Put(orders, found.value.orderId, found.value.(state := s));
      return None;
    }

    /** The running totals of an order once it has moved to its next state. */
    method Accumulate(o: Order, f: Fill) returns (order: Order)
      ensures order == WithFill(o, f, tolerance)
    {
      order := o.(state := NextState(o, f, tolerance));
      order := order.(filledQuantity := o.filledQuantity + f.quantity, averagePrice := Some(AverageWith(o, f)));
      order := order.(feesPaid := order.feesPaid + f.feeUsd);
      if order.feeSource.None? {
        order := order.(feeSource := Some(f.feeSource));
      } else if order.feeSource.value != f.feeSource {
        order := order.(feeSource := Some(Mixed));
      }
    }

    method Record(f: Fill) returns (r: Result<bool>)
      modifies this
      ensures RecordFill(old(Value()), f, tolerance) ==
              if r.Ok? then Ok((Value(), r.value)) else Err(r.error)
      ensures r.Err? ==> Value() == old(Value())
    {
      if f.fillId in processed {
        return Ok(false);
      }
      var found := Find(f.orderId);
      if found.None? {
        return Err(OrphanFill);
      }
      var order := found.value;
      if Upper(f.asset) != Upper(order.asset) || f.side != order.side {
        return Err(FillMismatch);
      }
      if order.filledQuantity + f.quantity > order.requestedQuantity + tolerance {
        return Err(Overfill);
      }
      if !IsLegalTransition(order.state, NextState(order, f, tolerance)) {
        return Err(IllegalTransition);
      }
      order := Accumulate(order, f);
      orders := Put(orders, order.orderId, order);
      processed := processed + {f.fillId};
      return Ok(true);
    }
  }
}
