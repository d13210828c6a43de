/** The risk engine as an object: it collects findings check by check and consults the breaker,
    which may clear itself when asked. */
module RiskEngines {
  import opened Common
  import opened Risk
  import B = CircuitBreaker

  /** What the breaker keeps and answers: it is asked unless the halt or an exit makes its answer moot. */
  function Consulted(limits: B.Limits, states: map<string, B.Strategy>, q: Query): (map<string, B.Strategy>, bool) {
    if q.halted || IsExitStrategy(q.proposal.strategyId) then (states, false)
    else B.AskStates(limits, states, q.proposal.strategyId, q.now)
  }

  /** What one evaluation collects: the reasons to report and those among them that block. */
  datatype Findings = Findings(reasons: seq<Reason>, blocking: seq<Reason>)
  {
    function Add(found: bool, reason: Reason, blocks: bool): Findings {
      Findings(reasons + Flag(found, reason), blocking + Flag(found && blocks, reason))
    }
  }

  /** The account-level checks that block this proposal. */
  ghost predicate AccountBlocks(c: Settings, q: Query) {
    || IsStale(c, q.snapshot, q.now)
    || (!q.Reducing() &&
        (|| LostTheDay(c, q.snapshot) || DrawnDown(c, q.snapshot) || GrossRoom(c, q.snapshot) <= 0.0
         || CashRoom(c, q.snapshot) <= 0.0 || NoFreeSlot(c, q.snapshot, q.proposal.asset)))
  }

  class RiskEngine {
    const settings: Settings
    const breaker: B.StrategyCircuitBreaker?

    constructor (settings: Settings, breaker: B.StrategyCircuitBreaker?)
      ensures this.settings == settings && this.breaker == breaker
    {
      this.settings, this.breaker := settings, breaker;
    }

    method CheckAccount(q: Query) returns (found: Findings)
      ensures found.reasons == AccountReasons(settings, q)
      ensures found.blocking != [] <==> AccountBlocks(settings, q)
    {
      var s, adding := q.snapshot, !q.Reducing();
      found := Findings(Flag(IsStale(settings, s, q.now), StaleState), Flag(IsStale(settings, s, q.now), StaleState));
      found := found.Add(LostTheDay(settings, s), DailyLoss, adding);
      found := found.Add(DrawnDown(settings, s), Drawdown, adding);
      found := found.Add(adding && GrossRoom(settings, s) <= 0.0, GrossExposure, true);
      found := found.Add(adding && CashRoom(settings, s) <= 0.0, CashReserve, true);
      found := found.Add(adding && NoFreeSlot(settings, s, q.proposal.asset), MaxPositions, true);
    }

    method ScaleRequest(q: Query) returns (requested: Positive, scaled: bool, garch: bool)
      ensures requested == ScaledRequest(settings, q.proposal, q.features)
      ensures scaled <==> VolatilityFactor(settings, q.features) < 1.0
      ensures garch <==> GarchFactor(settings, q.features) < 1.0
    {
      requested, scaled, garch := q.proposal.requested, false, false;
      if q.features.Some? && settings.volatilitySizing {
        var factor := VolatilityFactor(settings, q.features);
        if factor < 1.0 {
          requested, scaled := Scale(requested, factor), true;
        }
      }
      if q.features.Some? && settings.garchSizing {
        var factor := GarchFactor(settings, q.features);
        if factor < 1.0 {
          requested, garch := Scale(requested, factor), true;
        }
      }
    }

    method SizeReduction(q: Query, checked: Findings) returns (r: RiskResult)
      requires q.Reducing() && !q.halted && checked.reasons == CheckReasons(settings, q)
      requires checked.blocking != [] <==> Blocked(settings, q)
      ensures r == Evaluate(settings, q)
    {
      var approved := Min(q.proposal.requested, Existing(q.snapshot, q.proposal.asset));
      var reasons := checked.reasons + Flag(approved < q.proposal.requested, SellCapped);
      if checked.blocking != [] {
        return RiskResult(Reject, 0.0, reasons);
      }
      return RiskResult(if approved == q.proposal.requested then Allow else Reduce, approved, reasons);
    }

    method SizeAddition(q: Query, checked: Findings) returns (r: RiskResult)
      requires !q.Reducing() && !q.halted && checked.reasons == CheckReasons(settings, q)
      requires checked.blocking != [] <==> AccountBlocks(settings, q) || CommonBlock(settings, q)
      ensures r == Evaluate(settings, q)
    {
      var remaining := PositionRoom(settings, q.snapshot, q.proposal.asset);
      var found := checked.Add(remaining <= 0.0, PositionLimit, true);
      assert found.blocking != [] <==> Blocked(settings, q);
      if found.blocking != [] {
        return RiskResult(Reject, 0.0, found.reasons);
      }
      assert found.reasons == checked.reasons;
      var requested, scaled, garch := ScaleRequest(q);
      var approved := Min(requested, Min(remaining,
                                         Min(GrossRoom(settings, q.snapshot), CashRoom(settings, q.snapshot))));
      var notes := Flag(scaled, VolatilityScaled) + Flag(garch, GarchScaled)
          + Flag(approved != q.proposal.requested, SizeReduced);
      r := RiskResult(if approved == q.proposal.requested then Allow else Reduce, approved, found.reasons + notes);
    }

    /** The decision is the one the limits define, for whatever the breaker answered. */
    method EvaluateProposal(q: Query) returns (r: RiskResult)
      modifies breaker
      ensures breaker == null ==> r == Evaluate(settings, q.(tripped := false))
      ensures breaker != null ==>
                var (states, tripped) := Consulted(breaker.limits, old(breaker.states), q);
                breaker.states == states && r == Evaluate(settings, q.(tripped := tripped))
    {
      if q.halted {
        return RiskResult(Reject, 0.0, [KillSwitch]);
      }
      var tripped := false;
      var found := CheckAccount(q);
      if breaker != null && !IsExitStrategy(q.proposal.strategyId) {
        tripped := breaker.IsTripped(q.proposal.strategyId, q.now);
      }
      var asked := q.(tripped := tripped);
      assert AccountReasons(settings, asked) == AccountReasons(settings, q);
      found := found.Add(asked.BreakerBlocks(), StrategyBreaker, true);
      found := found.Add(Upper(q.proposal.asset) !in settings.assets, NotAllowlisted, true);
      found := found.Add(TooWide(settings, q.features), SpreadTooWide, true);
      if asked.Reducing() {
        r := SizeReduction(asked, found);
      } else {
        r := SizeAddition(asked, found);
      }
    }
  }
}
