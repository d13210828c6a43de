/** What a position remembers of its life: since when it is open, who opened it, and the highest
    price seen since. The exits read these fields; here they are pinned to the events of the run. */
module Holdings {
  import opened Common
  import opened Portfolio

  datatype Event =
    | Filled(asset: string, side: Side, quantity: real, price: real, fee: real, now: real, strategy: Option<string>)
    | Marked(asset: string, price: real)
    | Observed(now: real)
    | Restart

  function Step(b: Book, e: Event): Book {
    match e
    case Filled(asset, side, quantity, price, fee, now, strategy) =>
      ApplyFill(b, asset, side, quantity, price, fee, now, strategy).0
    case Marked(asset, price) => Mark(b, asset, price).0
    case Observed(now) => TakeSnapshot(b, now).0
    case Restart => if SaveBook(b).Some? then LoadBook(SaveBook(b).value) else b
  }

  function Run(b: Book, es: seq<Event>): Book {
    if es == [] then b else Step(Run(b, es[..|es| - 1]), es[|es| - 1])
  }

  // ----- the story told from the events alone -----

  /** One stretch of holding an asset: how much, opened when and by which strategy, prices since. */
  datatype Episode = Episode(quantity: real, openedAt: real, strategy: Option<string>, seen: seq<real>)

  predicate Takes(e: Event, key: string) {
    e.Filled? && e.quantity > 0.0 && e.price > 0.0 && e.fee >= 0.0 && Upper(e.asset) == key
  }

  function Seen(ep: Option<Episode>, price: real): Option<Episode> {
    if ep.Some? then Some(ep.value.(seen := ep.value.seen + [price])) else None
  }

  function Next(ep: Option<Episode>, key: string, e: Event): Option<Episode> {
    if e.Marked? && e.price > 0.0 && Upper(e.asset) == key then Seen(ep, e.price)
    else if !Takes(e, key) then ep
    else if e.side == Buy then
      if ep.None? then Some(Episode(e.quantity, e.now, e.strategy, [e.price]))
      else Seen(Some(ep.value.(quantity := ep.value.quantity + e.quantity)), e.price)
    else if ep.None? || e.quantity > ep.value.quantity then ep
    else if e.quantity == ep.value.quantity then None
    else Seen(Some(ep.value.(quantity := ep.value.quantity - e.quantity)), e.price)
  }

  function Story(key: string, es: seq<Event>): Option<Episode> {
    if es == [] then None else Next(Story(key, es[..|es| - 1]), key, es[|es| - 1])
  }

  ghost predicate IsHighest(price: real, seen: seq<real>) {
    price in seen && forall x :: x in seen ==> x <= price
  }

  /** The position's own fields tell that story. */
  ghost predicate Tells(p: Position, ep: Option<Episode>) {
    match ep
    case None => p.quantity == 0.0 && p.openedAt.None? && p.highWater == 0.0 && p.entryStrategy.None?
    case Some(x) =>
      && p.quantity == x.quantity > 0.0 && p.openedAt == Some(x.openedAt) && p.entryStrategy == x.strategy
      && IsHighest(p.highWater, x.seen)
  }

  lemma HighestOfMore(price: real, seen: seq<real>, latest: real)
    requires IsHighest(price, seen)
    ensures IsHighest(Max(price, latest), seen + [latest])
  {
    assert (seen + [latest])[|seen|] == latest;
    assert price in seen + [latest] && latest in seen + [latest];
  }

  /** Marking changes one open position's high water and nothing else of any. */
  lemma MarkedPosition(b: Book, key: string, price: Positive, q: string)
    ensures var p := PositionOf(b, q);
            PositionOf(Portfolio.Marked(b, key, price), q) ==
            if q == key && p.quantity > 0.0 then p.(highWater := Max(p.highWater, price)) else p
  {
    var p := PositionOf(b, key);
    StoredAt(b, key, p.(highWater := Max(p.highWater, price)), q);
  }

  lemma SettledPosition(b: Book, key: string, price: Positive, q: string)
    ensures PositionOf(Settled(b, key, price), q) == PositionOf(Portfolio.Marked(b, key, price), q)
  {
  }

  lemma MarkTells(p: Position, ep: Option<Episode>, price: Positive)
    requires Tells(p, ep)
    ensures Tells(if p.quantity > 0.0 then p.(highWater := Max(p.highWater, price)) else p, Seen(ep, price))
  {
    if ep.Some? {
      HighestOfMore(p.highWater, ep.value.seen, price);
    }
  }

  lemma BuyTells(p: Position, ep: Option<Episode>, quantity: Positive, price: Positive, fee: NonNegative, now: real,
                 strategy: Option<string>)
    requires Tells(p, ep)
    ensures var p' := Bought(p, quantity, price, fee, now, strategy);
            Tells(p'.(highWater := Max(p'.highWater, price)),
                  if ep.None? then Some(Episode(quantity, now, strategy, [price]))
                  else Seen(Some(ep.value.(quantity := ep.value.quantity + quantity)), price))
  {
    if ep.Some? {
      HighestOfMore(p.highWater, ep.value.seen, price);
    }
  }

  lemma SellTells(p: Position, ep: Option<Episode>, quantity: Positive, price: Positive, fee: NonNegative)
    requires Tells(p, ep) && quantity <= p.quantity
    ensures var p' := SoldDown(p, quantity, fee);
            Tells(if p'.quantity > 0.0 then p'.(highWater := Max(p'.highWater, price)) else p',
                  if quantity == p.quantity then None
                  else Seen(Some(ep.value.(quantity := ep.value.quantity - quantity)), price))
  {
    HighestOfMore(p.highWater, ep.value.seen, price);
  }

  /** Where a fill leaves any position of the book. */
  lemma FilledPosition(b: Book, e: Event, q: string)
    requires e.Filled? && e.quantity > 0.0 && e.price > 0.0 && e.fee >= 0.0
    ensures var p, key := PositionOf(b, q), Upper(e.asset);
            var bought := Bought(p, e.quantity, e.price, e.fee, e.now, e.strategy);
            PositionOf(Step(b, e), q) ==
            if q != key || (e.side == Sell && e.quantity > p.quantity) then p
            else if e.side == Buy then bought.(highWater := Max(bought.highWater, e.price))
            else
              var sold := SoldDown(p, e.quantity, e.fee);
              if sold.quantity > 0.0 then sold.(highWater := Max(sold.highWater, e.price)) else sold
  {
    var key := Upper(e.asset);
    var p := PositionOf(b, key);
    if e.side == Buy {
      StoredAt(b, key, Bought(p, e.quantity, e.price, e.fee, e.now, e.strategy), q);
      var b' := Buying(b, key, e.quantity, e.price, e.fee, e.now, e.strategy);
      MarkedPosition(b', key, e.price, q);
      SettledPosition(b', key, e.price, q);
    } else if e.quantity <= p.quantity {
      StoredAt(b, key, SoldDown(p, e.quantity, e.fee), q);
      var b' := Selling(b, key, e.quantity, e.price, e.fee);
      MarkedPosition(b', key, e.price, q);
      SettledPosition(b', key, e.price, q);
    } else {
      StoredAt(b, key, p, q);
    }
  }

  lemma FillTells(b: Book, e: Event, key: string, ep: Option<Episode>)
    requires Takes(e, key) && Tells(PositionOf(b, key), ep)
    ensures Tells(PositionOf(Step(b, e), key), Next(ep, key, e))
  {
    var p := PositionOf(b, key);
    FilledPosition(b, e, key);
    if e.side == Buy {
      BuyTells(p, ep, e.quantity, e.price, e.fee, e.now, e.strategy);
    } else if e.quantity <= p.quantity {
      SellTells(p, ep, e.quantity, e.price, e.fee);
    }
  }

  lemma StepTells(b: Book, e: Event, key: string, ep: Option<Episode>)
    requires Valid(b) && Tells(PositionOf(b, key), ep)
    ensures Tells(PositionOf(Step(b, e), key), Next(ep, key, e))
  {
    match e {
      case Filled(_, _, _, _, _, _, _) =>
        if Takes(e, key) {
          FillTells(b, e, key, ep);
        } else if e.quantity > 0.0 && e.price > 0.0 && e.fee >= 0.0 {
          FilledPosition(b, e, key);
        }
      case Marked(asset, price) =>
        if price > 0.0 {
          MarkedPosition(b, Upper(asset), price, key);
          MarkTells(PositionOf(b, key), ep, price);
        }
      case Observed(now) =>
      case Restart => RestartIsIdentity(b);
    }
  }

  lemma FillStaysValid(b: Book, e: Event)
    requires Valid(b) && e.Filled?
    ensures Valid(Step(b, e))
  {
    if e.quantity > 0.0 && e.price > 0.0 && e.fee >= 0.0 {
      var key := Upper(e.asset);
      UpperIdempotent(e.asset);
      HeldFits(b, key);
      var p := PositionOf(b, key);
      if e.side == Buy {
        BoughtCost(p, e.quantity, e.price, e.fee, e.now, e.strategy);
        StoredStaysValid(b, key, Bought(p, e.quantity, e.price, e.fee, e.now, e.strategy));
        MarkedStaysValid(Buying(b, key, e.quantity, e.price, e.fee, e.now, e.strategy), key, e.price);
      } else if e.quantity <= p.quantity {
        SoldCost(p, e.quantity, e.price, e.fee);
        StoredStaysValid(b, key, SoldDown(p, e.quantity, e.fee));
        MarkedStaysValid(Selling(b, key, e.quantity, e.price, e.fee), key, e.price);
      } else {
        StoredStaysValid(b, key, p);
      }
    }
  }

  lemma StepStaysValid(b: Book, e: Event)
    requires Valid(b)
    ensures Valid(Step(b, e))
  {
    match e {
      case Filled(_, _, _, _, _, _, _) => FillStaysValid(b, e);
      case Marked(asset, price) =>
        if price > 0.0 {
          UpperIdempotent(asset);
          MarkedStaysValid(b, Upper(asset), price);
        }
      case Observed(now) =>
      case Restart => RestartIsIdentity(b);
    }
  }

  /** Over every run of fills, marks, snapshots and restarts, and for every asset: the book holds
      what the taken fills left, and an open position knows when it was opened, by which strategy,
      and the highest price filled or marked since, while a flat one has forgotten all three. */
  lemma {:induction false} PositionsTellTheirStory(startingNav: Positive, es: seq<Event>, key: string)
    ensures Valid(Run(Opening(startingNav), es))
    ensures Tells(PositionOf(Run(Opening(startingNav), es), key), Story(key, es))
  {
    if es != [] {
      var front, e := es[..|es| - 1], es[|es| - 1];
      PositionsTellTheirStory(startingNav, front, key);
      StepStaysValid(Run(Opening(startingNav), front), e);
      StepTells(Run(Opening(startingNav), front), e, key, Story(key, front));
    }
  }
}
