/** Per-strategy suspension on realized losses. */
module CircuitBreaker {
  import opened Common

  datatype ClosedTrade = ClosedTrade(pnl: real, nav: Positive, at: real) {
    function Fraction(): real { pnl / nav }
  }

  datatype Reason = ConsecutiveLosses | RollingLoss

  datatype Trip = Trip(at: real, reason: Reason)

  datatype Strategy = Strategy(losses: nat, closed: seq<ClosedTrade>, trip: Option<Trip>)

  const FRESH := Strategy(0, [], None)

  datatype Limits = Limits(maxLosses: nat, window: nat, maxDrawdown: real, cooldown: real)

  // ----- drawdown of the realized curve -----

  /** Each trade's profit as a part of the value it was made with. */
  function Fractions(ts: seq<ClosedTrade>): seq<real> {
    seq(|ts|, i requires 0 <= i < |ts| => ts[i].Fraction())
  }

  /** The cumulative curve: zero, then one point per trade. */
  function Curve(fs: seq<real>): (es: seq<real>)
    ensures |es| == |fs| + 1
  {
    if fs == [] then [0.0]
    else
      var front := Curve(fs[..|fs| - 1]);
      front + [front[|fs| - 1] + fs[|fs| - 1]]
  }

  datatype Scan = Scan(cumulative: real, peak: real, worst: real)

  function ScanOf(fs: seq<real>): Scan {
    if fs == [] then Scan(0.0, 0.0, 0.0)
    else
      var s := ScanOf(fs[..|fs| - 1]);
      var c := s.cumulative + fs[|fs| - 1];
      Scan(c, Max(s.peak, c), Max(s.worst, Max(s.peak, c) - c))
  }

  function RollingDrawdown(ts: seq<ClosedTrade>): real { ScanOf(Fractions(ts)).worst }

  method RollingDrawdownLoop(ts: seq<ClosedTrade>) returns (worst: real)
    ensures worst == RollingDrawdown(ts)
  {
    var cumulative, peak := 0.0, 0.0;
    worst := 0.0;
    for i := 0 to |ts|
      invariant ScanOf(Fractions(ts)[..i]) == Scan(cumulative, peak, worst)
    {
      assert Fractions(ts)[..i + 1][..i] == Fractions(ts)[..i];
      cumulative := cumulative + ts[i].Fraction();
      peak := Max(peak, cumulative);
      worst := Max(worst, peak - cumulative);
    }
    assert Fractions(ts)[..|ts|] == Fractions(ts);
  }

  ghost predicate IsPeak(es: seq<real>, p: real) {
    p in es && forall i :: 0 <= i < |es| ==> es[i] <= p
  }

  ghost function Decline(es: seq<real>, i: nat, j: nat): real
    requires i < |es| && j < |es|
  {
    es[i] - es[j]
  }

  /** `w` is the largest decline from any point to the same or a later one. */
  ghost predicate IsLargestDecline(es: seq<real>, w: real) {
    && (forall i: nat, j: nat :: i <= j < |es| ==> Decline(es, i, j) <= w)
    && (exists i: nat, j: nat :: i <= j < |es| && Decline(es, i, j) == w)
  }

  lemma PeakStep(es: seq<real>, e: real, peak: real)
    requires IsPeak(es, peak)
    ensures IsPeak(es + [e], Max(peak, e))
  {
    var es' := es + [e];
    assert es'[|es|] == e;
    var k :| 0 <= k < |es| && es[k] == peak;
    assert es'[k] == peak;
  }

  lemma DeclineStep(es: seq<real>, e: real, peak: real, worst: real)
    requires IsPeak(es, peak) && IsLargestDecline(es, worst)
    ensures IsLargestDecline(es + [e], Max(worst, Max(peak, e) - e))
  {
    var es', n, w := es + [e], |es|, Max(worst, Max(peak, e) - e);
    PeakStep(es, e, peak);
    forall i: nat, j: nat | i <= j < |es'|
      ensures Decline(es', i, j) <= w
    {
      if j < n {
        assert Decline(es', i, j) == Decline(es, i, j);
      }
    }
    if w == worst {
      var i: nat, j: nat :| i <= j < |es| && Decline(es, i, j) == worst;
      assert Decline(es', i, j) == w;
    } else {
      var k :| 0 <= k < |es'| && es'[k] == Max(peak, e);
      assert Decline(es', k, n) == w;
    }
  }

  lemma {:induction false} ScanFindsTheLargestDecline(fs: seq<real>)
    ensures ScanOf(fs).cumulative == Curve(fs)[|fs|]
    ensures IsPeak(Curve(fs), ScanOf(fs).peak)
    ensures IsLargestDecline(Curve(fs), ScanOf(fs).worst)
  {
    if fs == [] {
      assert Curve(fs)[0] == 0.0;
      assert Decline(Curve(fs), 0, 0) == 0.0;
    } else {
      var front := fs[..|fs| - 1];
      ScanFindsTheLargestDecline(front);
      PeakStep(Curve(front), ScanOf(fs).cumulative, ScanOf(front).peak);
      DeclineStep(Curve(front), ScanOf(fs).cumulative, ScanOf(front).peak, ScanOf(front).worst);
    }
  }

  /** The running-peak loop finds the largest decline of the cumulative curve between any point and
      the same or a later one, the empty start included. */
  lemma DrawdownIsTheLargestDecline(ts: seq<ClosedTrade>)
    ensures IsLargestDecline(Curve(Fractions(ts)), RollingDrawdown(ts))
  {
    ScanFindsTheLargestDecline(Fractions(ts));
  }

  // ----- one strategy -----

  /** The window keeps the newest trades; a window of zero deletes nothing. */
  function Keep(ts: seq<ClosedTrade>, window: nat): seq<ClosedTrade> {
    if |ts| > window && window > 0 then ts[|ts| - window..] else ts
  }

  function Recorded(l: Limits, s: Strategy, t: ClosedTrade): Strategy {
    var closed := Keep(s.closed + [t], l.window);
    var losses := if t.pnl < 0.0 then s.losses + 1 else 0;
    Strategy(losses, closed,
             if s.trip.Some? then s.trip
             else if losses >= l.maxLosses then Some(Trip(t.at, ConsecutiveLosses))
             else if RollingDrawdown(closed) >= l.maxDrawdown then Some(Trip(t.at, RollingLoss))
             else None)
  }

  predicate CoolDownOver(l: Limits, t: Trip, now: real) { now - t.at >= l.cooldown }

  /** Asking may clear the strategy: the cool-down is checked on every question. */
  function Asked(l: Limits, s: Strategy, now: real): (Strategy, bool) {
    if s.trip.None? then (s, false)
    else if CoolDownOver(l, s.trip.value, now) then (FRESH, false)
    else (s, true)
  }

  // ----- the breaker over runs -----

  datatype Event =
    | Record(id: string, pnl: real, nav: real, at: real)
    | Ask(id: string, now: real)
    | Reset(id: string)
    | Reload

  /** Breaker states, and the history of each strategy since its last reset. */
  datatype Breaker = Breaker(states: map<string, Strategy>, since: map<string, seq<ClosedTrade>>)

  const EMPTY := Breaker(map[], map[])

  function StateOf(states: map<string, Strategy>, id: string): Strategy {
    if id in states then states[id] else FRESH
  }

  function SinceOf(b: Breaker, id: string): seq<ClosedTrade> {
    if id in b.since then b.since[id] else []
  }

  function RecordStates(l: Limits, states: map<string, Strategy>, id: string, pnl: real, nav: real, at: real):
    Option<map<string, Strategy>>
  {
    if nav <= 0.0 then None
    else Some(states[id := Recorded(l, StateOf(states, id), ClosedTrade(pnl, nav, at))])
  }

  function AskStates(l: Limits, states: map<string, Strategy>, id: string, now: real): (map<string, Strategy>, bool) {
    if id !in states then (states, false)
    else
      var (s, tripped) := Asked(l, states[id], now);
      (states[id := s], tripped)
  }

  function ResetStates(states: map<string, Strategy>, id: string): map<string, Strategy> {
    if id in states then states[id := FRESH] else states
  }

  /** Reloading an exported copy changes nothing; a bad NAV is refused. */
  function Step(l: Limits, b: Breaker, e: Event): Breaker {
    match e
    case Record(id, pnl, nav, at) =>
      (match RecordStates(l, b.states, id, pnl, nav, at)
       case None => b
       case Some(states) => Breaker(states, b.since[id := SinceOf(b, id) + [ClosedTrade(pnl, nav, at)]]))
    case Ask(id, now) =>
      var states := AskStates(l, b.states, id, now).0;
      var cleared := StateOf(b.states, id).trip.Some? && StateOf(states, id).trip.None?;
      Breaker(states, if cleared then b.since[id := []] else b.since)
    case Reset(id) => Breaker(ResetStates(b.states, id), b.since[id := []])
    case Reload => b
  }

  function Run(l: Limits, b: Breaker, es: seq<Event>): Breaker {
    if es == [] then b else Step(l, Run(l, b, es[..|es| - 1]), es[|es| - 1])
  }

  /** Length of the run of losses at the end. */
  function TrailingLosses(ts: seq<ClosedTrade>): nat {
    if ts == [] || ts[|ts| - 1].pnl >= 0.0 then 0 else TrailingLosses(ts[..|ts| - 1]) + 1
  }

  /** What the limits say about a history, with no window bookkeeping. */
  ghost predicate Breaches(l: Limits, since: seq<ClosedTrade>) {
    TrailingLosses(since) >= l.maxLosses || RollingDrawdown(Keep(since, l.window)) >= l.maxDrawdown
  }

  ghost predicate Faithful(l: Limits, s: Strategy, since: seq<ClosedTrade>) {
    && s.losses == TrailingLosses(since)
    && s.closed == Keep(since, l.window)
    && (s.trip.None? ==> !Breaches(l, since))
  }

  ghost predicate AllFaithful(l: Limits, b: Breaker) {
    forall id :: Faithful(l, StateOf(b.states, id), SinceOf(b, id))
  }

  lemma KeepAppend(ts: seq<ClosedTrade>, t: ClosedTrade, window: nat)
    ensures Keep(Keep(ts, window) + [t], window) == Keep(ts + [t], window)
  {
  }

  /** Recording keeps the books of a strategy, and trips an untripped one exactly when its history
      now breaches a limit. */
  lemma RecordedIsFaithful(l: Limits, s: Strategy, since: seq<ClosedTrade>, t: ClosedTrade)
    requires Faithful(l, s, since)
    ensures Faithful(l, Recorded(l, s, t), since + [t])
    ensures s.trip.None? ==> (Recorded(l, s, t).trip.Some? <==> Breaches(l, since + [t]))
    ensures s.trip.Some? ==> Recorded(l, s, t).trip == s.trip
  {
    KeepAppend(since, t, l.window);
    assert (since + [t])[..|since|] == since;
  }

  ghost predicate Sensible(l: Limits) { l.maxLosses > 0 && l.maxDrawdown > 0.0 }

  lemma FreshIsFaithful(l: Limits)
    requires Sensible(l)
    ensures Faithful(l, FRESH, [])
  {
  }

  /** A reload, or an event about another strategy, leaves this one alone. */
  lemma StepElsewhere(l: Limits, b: Breaker, e: Event, id: string)
    requires e.Reload? || e.id != id
    ensures StateOf(Step(l, b, e).states, id) == StateOf(b.states, id) && SinceOf(Step(l, b, e), id) == SinceOf(b, id)
  {
  }

  /** A question leaves a strategy as it was, or clears it together with its history. */
  lemma AskKeepsOrClears(l: Limits, b: Breaker, id: string, now: real)
    ensures var b' := Step(l, b, Ask(id, now));
            || (StateOf(b'.states, id) == StateOf(b.states, id) && SinceOf(b', id) == SinceOf(b, id))
            || (StateOf(b'.states, id) == FRESH && SinceOf(b', id) == [])
  {
  }

  /** A reset clears a strategy, known or not, together with its history. */
  lemma ResetClears(l: Limits, b: Breaker, id: string)
    ensures StateOf(Step(l, b, Reset(id)).states, id) == FRESH && SinceOf(Step(l, b, Reset(id)), id) == []
  {
  }

  /** A recorded trade joins its strategy's books; a bad NAV leaves them alone. */
  lemma RecordJoins(l: Limits, b: Breaker, id: string, pnl: real, nav: real, at: real)
    ensures var b' := Step(l, b, Record(id, pnl, nav, at));
            if nav <= 0.0 then b' == b
            else
              && StateOf(b'.states, id) == Recorded(l, StateOf(b.states, id), ClosedTrade(pnl, nav, at))
              && SinceOf(b', id) == SinceOf(b, id) + [ClosedTrade(pnl, nav, at)]
  {
  }

  lemma StepIsFaithfulTo(l: Limits, b: Breaker, e: Event, id: string)
    requires Sensible(l) && Faithful(l, StateOf(b.states, id), SinceOf(b, id))
    ensures Faithful(l, StateOf(Step(l, b, e).states, id), SinceOf(Step(l, b, e), id))
  {
    if e.Reload? || e.id != id {
      StepElsewhere(l, b, e, id);
    } else {
      match e {
        case Record(_, pnl, nav, at) =>
          RecordJoins(l, b, id, pnl, nav, at);
          if nav > 0.0 {
            RecordedIsFaithful(l, StateOf(b.states, id), SinceOf(b, id), ClosedTrade(pnl, nav, at));
          }
        case Ask(_, now) =>
          AskKeepsOrClears(l, b, id, now);
          FreshIsFaithful(l);
        case Reset(_) =>
          ResetClears(l, b, id);
          FreshIsFaithful(l);
        case Reload =>
      }
    }
  }

  lemma StepIsFaithful(l: Limits, b: Breaker, e: Event)
    requires Sensible(l) && AllFaithful(l, b)
    ensures AllFaithful(l, Step(l, b, e))
  {
    forall id
      ensures Faithful(l, StateOf(Step(l, b, e).states, id), SinceOf(Step(l, b, e), id))
    {
      StepIsFaithfulTo(l, b, e, id);
    }
  }

  /** Over every run and for every strategy: the loss counter is the trailing run of losses since the
      last reset, the window is the newest part of that history, and a strategy that is not tripped
      breaches neither limit. */
  lemma {:induction false} BooksOverEveryRun(l: Limits, es: seq<Event>)
    requires Sensible(l)
    ensures AllFaithful(l, Run(l, EMPTY, es))
  {
    FreshIsFaithful(l);
    if es != [] {
      BooksOverEveryRun(l, es[..|es| - 1]);
      StepIsFaithful(l, Run(l, EMPTY, es[..|es| - 1]), es[|es| - 1]);
    }
  }

  /** Nothing in the run resets the strategy or asks about it after its cool-down. */
  ghost predicate StillCooling(l: Limits, id: string, t: Trip, es: seq<Event>) {
    forall i :: 0 <= i < |es| ==>
      && es[i] != Reset(id)
      && (es[i].Ask? && es[i].id == id ==> !CoolDownOver(l, t, es[i].now))
  }

  /** A trip's time and reason are fixed until the cool-down elapses: over any run that neither
      resets the strategy nor asks after the cool-down, it stays, and every question is answered yes. */
  lemma {:induction false} TripIsFixed(l: Limits, b: Breaker, id: string, t: Trip, es: seq<Event>, now: real)
    requires StateOf(b.states, id).trip == Some(t) && StillCooling(l, id, t, es)
    ensures StateOf(Run(l, b, es).states, id).trip == Some(t)
    ensures AskStates(l, Run(l, b, es).states, id, now).1 <==> !CoolDownOver(l, t, now)
  {
    if es != [] {
      TripIsFixed(l, b, id, t, es[..|es| - 1], now);
      assert StillCooling(l, id, t, [es[|es| - 1]]) by {
        assert es[|es| - 1] != Reset(id);
      }
    }
  }

  // ----- the object -----

  class StrategyCircuitBreaker {
    const limits: Limits
    var states: map<string, Strategy>

    constructor (limits: Limits)
      ensures this.limits == limits && states == map[]
    {
      this.limits, states := limits, map[];
    }

    method RecordClosedTrade(id: string, pnl: real, nav: real, at: real) returns (ok: bool)
      modifies this
      ensures RecordStates(limits, old(states), id, pnl, nav, at) == if ok then Some(states) else None
      ensures !ok ==> states == old(states)
    {
      if nav <= 0.0 {
        return false;
      }
      var s := if id in states then states[id] else FRESH;
      var closed := s.closed + [ClosedTrade(pnl, nav, at)];
      if |closed| > limits.window && limits.window > 0 {
        closed := closed[|closed| - limits.window..];
      }
      s := s.(closed := closed, losses := if pnl < 0.0 then s.losses + 1 else 0);
      if s.trip.None? {
        if s.losses >= limits.maxLosses {
          s := s.(trip := Some(Trip(at, ConsecutiveLosses)));
        } else {
          var worst := RollingDrawdownLoop(s.closed);
          if worst >= limits.maxDrawdown {
            s := s.(trip := Some(Trip(at, RollingLoss)));
          }
        }
      }
      states := states[id := s];
      return true;
    }

    method IsTripped(id: string, now: real) returns (tripped: bool)
      modifies this
      ensures (states, tripped) == AskStates(limits, old(states), id, now)
    {
      if id !in states || states[id].trip.None? {
        assert id in states ==> states[id := states[id]] == states;
        return false;
      }
      if now - states[id].trip.value.at >= limits.cooldown {
        ClearStrategy(id);
        return false;
      }
      assert states[id := states[id]] == states;
      return true;
    }

    method ClearStrategy(id: string)
      modifies this
      ensures states == ResetStates(old(states), id)
    {
      if id in states {
        states := states[id := FRESH];
      }
    }
  }
}
