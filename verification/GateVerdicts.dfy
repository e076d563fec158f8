/** What each check of the risk gate refuses, and that it refuses nothing else. */
module GateVerdicts {
  import opened Models
  import opened Reals
  import opened Sizing
  import opened Selection
  import opened StrategyBuilder
  import opened RiskGate

  // ---- Defined risk -------------------------------------------------------

  ghost function LegsOf(legs: seq<Leg>, side: Side, t: OptionType): set<nat> {
    set i: nat | i < |legs| && legs[i].side == side && legs[i].optionType == t
  }

  ghost function Shifted(s: set<nat>): set<nat> { set i | i in s :: i + 1 }

  lemma InShifted(s: set<nat>, n: nat)
    ensures n in Shifted(s) <==> n > 0 && n - 1 in s
  {
    if n > 0 && n - 1 in s { assert (n - 1) + 1 == n; }
  }

  lemma {:induction false} ShiftedSize(s: set<nat>)
    ensures |Shifted(s)| == |s|
    decreases |s|
  {
    if s != {} {
      var x :| x in s;
      ShiftedSize(s - {x});
      forall n: nat ensures n in Shifted(s) <==> n in Shifted(s - {x}) + {x + 1} {
        InShifted(s, n);
        InShifted(s - {x}, n);
      }
      InShifted(s - {x}, x + 1);
      hide Shifted;
      assert Shifted(s) == Shifted(s - {x}) + {x + 1};
    }
  }

  /** The first leg's own index, if it counts. */
  ghost function HeadOf(leg: Leg, side: Side, t: OptionType): set<nat> {
    if leg.side == side && leg.optionType == t then {0} else {}
  }

  lemma LegsOfCons(legs: seq<Leg>, side: Side, t: OptionType)
    requires legs != []
    ensures LegsOf(legs, side, t) == HeadOf(legs[0], side, t) + Shifted(LegsOf(legs[1..], side, t))
    ensures HeadOf(legs[0], side, t) !! Shifted(LegsOf(legs[1..], side, t))
  {
    var rest := legs[1..];
    var tail := Shifted(LegsOf(rest, side, t));
    forall i: nat ensures i in LegsOf(legs, side, t) <==> i in HeadOf(legs[0], side, t) || i in tail {
      InShifted(LegsOf(rest, side, t), i);
      if 0 < i < |legs| { assert legs[i] == rest[i - 1]; }
    }
    InShifted(LegsOf(rest, side, t), 0);
  }

  lemma {:induction false} CountIsNumber(legs: seq<Leg>, side: Side, t: OptionType)
    ensures CountLegs(legs, side, t) == |LegsOf(legs, side, t)|
  {
    if legs == [] {
      assert LegsOf(legs, side, t) == {};
    } else {
      hide LegsOf, Shifted;
      CountIsNumber(legs[1..], side, t);
      LegsOfCons(legs, side, t);
      ShiftedSize(LegsOf(legs[1..], side, t));
    }
  }

  /** A plan without short legs passes; with them it passes as a written option or when every short has its long. */
  lemma DefinedRiskIff(plan: OrderPlan)
    ensures CheckDefinedRisk(plan) == None || CheckDefinedRisk(plan) == Some(NakedShortLeg)
    ensures CheckDefinedRisk(plan).None?
       <==> || (forall leg :: leg in plan.legs ==> leg.side == Buy)
            || plan.strategy == CoveredCall || plan.strategy == CashSecuredPut
            || (plan.strategy in {DebitCallSpread, DebitPutSpread, PutCreditSpread, CallCreditSpread, IronCondor, IronButterfly}
                && forall t :: |LegsOf(plan.legs, Sell, t)| <= |LegsOf(plan.legs, Buy, t)|)
  {
    CountIsNumber(plan.legs, Sell, Call);
    CountIsNumber(plan.legs, Sell, Put);
    CountIsNumber(plan.legs, Buy, Call);
    CountIsNumber(plan.legs, Buy, Put);
    NoShortsIff(plan.legs);
    hide LegsOf;
    BothTypes(plan.legs);
  }

  lemma BothTypes(legs: seq<Leg>)
    ensures (forall t :: |LegsOf(legs, Sell, t)| <= |LegsOf(legs, Buy, t)|)
       <==> |LegsOf(legs, Sell, Call)| <= |LegsOf(legs, Buy, Call)| && |LegsOf(legs, Sell, Put)| <= |LegsOf(legs, Buy, Put)|
  {
    hide LegsOf;
    if |LegsOf(legs, Sell, Call)| <= |LegsOf(legs, Buy, Call)| && |LegsOf(legs, Sell, Put)| <= |LegsOf(legs, Buy, Put)| {
      forall t ensures |LegsOf(legs, Sell, t)| <= |LegsOf(legs, Buy, t)| {
        match t
        case Call =>
        case Put =>
      }
    }
  }

  lemma NoShortsIff(legs: seq<Leg>)
    ensures |LegsOf(legs, Sell, Call)| + |LegsOf(legs, Sell, Put)| == 0 <==> forall leg :: leg in legs ==> leg.side == Buy
  {
    var calls, puts := LegsOf(legs, Sell, Call), LegsOf(legs, Sell, Put);
    if forall leg :: leg in legs ==> leg.side == Buy {
      assert calls == {} && puts == {};
    } else {
      var leg :| leg in legs && leg.side == Sell;
      var i :| 0 <= i < |legs| && legs[i] == leg;
      assert i in calls || i in puts;
    }
  }

  // ---- Open interest and spreads ------------------------------------------

  predicate EnoughInterest(leg: Leg, limits: RiskLimits) {
    leg.openInterest.Some? && leg.openInterest.value >= limits.minOpenInterest
  }

  /** The first leg short of open interest is named; without one there is no objection. */
  lemma {:induction false} OpenInterestIff(legs: seq<Leg>, limits: RiskLimits)
    ensures CheckOpenInterest(legs, limits).None? <==> forall leg :: leg in legs ==> EnoughInterest(leg, limits)
    ensures CheckOpenInterest(legs, limits).Some? ==>
              exists leg :: leg in legs && !EnoughInterest(leg, limits)
                && CheckOpenInterest(legs, limits) == Some(InsufficientOpenInterest(leg.symbol))
  {
    if legs != [] {
      OpenInterestIff(legs[1..], limits);
      assert legs[0] in legs && forall leg :: leg in legs <==> leg == legs[0] || leg in legs[1..];
    }
  }

  /** Over a limit by more than the tolerance: a billionth of the larger of the two, or a trillionth. */
  predicate ClearlyOver(x: real, limit: real) {
    x > limit && x - limit > 0.000000001 * Abs(x) && x - limit > 0.000000001 * Abs(limit) && x - limit > 0.000000000001
  }

  lemma NotCloseIff(x: real, limit: real)
    ensures x > limit && !IsClose(x, limit) <==> ClearlyOver(x, limit)
  {}

  predicate QuotedBothSides(leg: Leg) { leg.bid.Some? && leg.ask.Some? && leg.bid.value > 0.0 && leg.ask.value > 0.0 }

  /** Wide against its mid and in dollars, each beyond the tolerance. */
  predicate TooWide(leg: Leg, limits: RiskLimits)
    requires QuotedBothSides(leg)
  {
    var mid, spread := (leg.bid.value + leg.ask.value) / 2.0, leg.ask.value - leg.bid.value;
    ClearlyOver(spread / mid, limits.maxSpreadPct) && ClearlyOver(spread, limits.maxSpreadAbs)
  }

  lemma LegSpreadIff(leg: Leg, limits: RiskLimits)
    ensures LegSpreadBreach(leg, limits)
         == if !QuotedBothSides(leg) then Some(MissingQuote(leg.symbol))
            else if TooWide(leg, limits) then Some(WideLeg(leg.symbol)) else None
  {
    hide IsClose, ClearlyOver;
    if QuotedBothSides(leg) {
      var mid, spread := (leg.bid.value + leg.ask.value) / 2.0, leg.ask.value - leg.bid.value;
      NotCloseIff(spread / mid, limits.maxSpreadPct);
      NotCloseIff(spread, limits.maxSpreadAbs);
    }
  }

  /** The first leg unquoted or too wide is named; without one there is no objection. */
  lemma {:induction false} SpreadIff(legs: seq<Leg>, limits: RiskLimits)
    ensures CheckSpread(legs, limits).None? <==> forall leg :: leg in legs ==> QuotedBothSides(leg) && !TooWide(leg, limits)
    ensures CheckSpread(legs, limits).Some? ==>
              exists leg :: leg in legs
                && CheckSpread(legs, limits)
                   == Some(if QuotedBothSides(leg) then WideLeg(leg.symbol) else MissingQuote(leg.symbol))
                && (QuotedBothSides(leg) ==> TooWide(leg, limits))
  {
    hide LegSpreadBreach, TooWide, QuotedBothSides;
    if legs != [] {
      SpreadIff(legs[1..], limits);
      LegSpreadIff(legs[0], limits);
      assert legs[0] in legs && forall leg :: leg in legs <==> leg == legs[0] || leg in legs[1..];
    }
  }

  // ---- Dollars ------------------------------------------------------------

  /**
   * The plan's whole loss against a fraction of the equity, and against a fraction of the buying power,
   * whatever the strategy.
   */
  lemma CapacityIff(plan: OrderPlan, limits: RiskLimits, equity: Option<real>, buyingPower: Option<real>)
    ensures CheckPremiumPerTrade(plan, limits, equity).None?
       <==> equity.Some? && plan.maxLoss <= limits.maxPremiumPctPerTrade * equity.value
    ensures CheckPremiumPerTrade(plan, limits, equity) == Some(UnknownEquity) <==> equity.None?
    ensures CheckBuyingPower(plan, limits, buyingPower).None?
       <==> buyingPower.Some? && plan.maxLoss <= limits.buyingPowerCap * buyingPower.value
    ensures CheckBuyingPower(plan, limits, buyingPower) == Some(NoBuyingPowerReading) <==> buyingPower.None?
  {}
}
