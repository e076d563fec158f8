/** The risk engine's structural and capacity checks, and their agreement with the builder. */
module RiskGate {
  import opened Models
  import opened Reals
  import opened Sizing
  import opened Selection
  import opened StrategyBuilder
  import opened PlanRisk

  datatype RiskLimits = RiskLimits(
    maxPremiumPctPerTrade: real, buyingPowerCap: real, minOpenInterest: nat, maxSpreadPct: real, maxSpreadAbs: real)

  function FromSettings(st: Settings): RiskLimits {
    RiskLimits(st.maxPremiumPctPerTrade, st.buyingPowerCap, st.minOpenInterest, st.maxSpreadPct, st.maxSpreadAbs)
  }

  datatype Breach =
    | NakedShortLeg | InsufficientOpenInterest(symbol: string) | MissingQuote(symbol: string)
    | WideLeg(symbol: string) | UnknownEquity | PremiumPerTradeExceeded
    | NoBuyingPowerReading | InsufficientBuyingPower

  predicate WingProtectedName(s: Strategy) {
    s == DebitCallSpread || s == DebitPutSpread || IsCredit(s)
  }

  function CountLegs(legs: seq<Leg>, side: Side, t: OptionType): nat {
    if legs == [] then 0
    else (if legs[0].side == side && legs[0].optionType == t then 1 else 0) + CountLegs(legs[1..], side, t)
  }

  function CheckDefinedRisk(plan: OrderPlan): Option<Breach> {
    if CountLegs(plan.legs, Sell, Call) + CountLegs(plan.legs, Sell, Put) == 0 then None
    else if WingProtectedName(plan.strategy) then
      if CountLegs(plan.legs, Buy, Call) < CountLegs(plan.legs, Sell, Call)
         || CountLegs(plan.legs, Buy, Put) < CountLegs(plan.legs, Sell, Put)
      then Some(NakedShortLeg) else None
    else if IsShortOnly(plan.strategy) then None
    else Some(NakedShortLeg)
  }

  function CheckOpenInterest(legs: seq<Leg>, limits: RiskLimits): Option<Breach> {
    if legs == [] then None
    else if legs[0].openInterest.None? || legs[0].openInterest.value < limits.minOpenInterest
    then Some(InsufficientOpenInterest(legs[0].symbol))
    else CheckOpenInterest(legs[1..], limits)
  }

  /** `math.isclose` with the gate's tolerances. */
  predicate IsClose(a: real, b: real) {
    Abs(a - b) <= Max(0.000000001 * Max(Abs(a), Abs(b)), 0.000000000001)
  }

  function LegSpreadBreach(leg: Leg, limits: RiskLimits): Option<Breach> {
    if leg.bid.None? || leg.ask.None? || leg.bid.value <= 0.0 || leg.ask.value <= 0.0
    then Some(MissingQuote(leg.symbol))
    else
      var mid := (leg.bid.value + leg.ask.value) / 2.0;
      var spread := leg.ask.value - leg.bid.value;
      if mid <= 0.0 then None
      else if spread / mid > limits.maxSpreadPct && !IsClose(spread / mid, limits.maxSpreadPct)
              && spread > limits.maxSpreadAbs && !IsClose(spread, limits.maxSpreadAbs)
      then Some(WideLeg(leg.symbol)) else None
  }

  function CheckSpread(legs: seq<Leg>, limits: RiskLimits): Option<Breach> {
    if legs == [] then None
    else if LegSpreadBreach(legs[0], limits).Some? then LegSpreadBreach(legs[0], limits)
    else CheckSpread(legs[1..], limits)
  }

  function CheckPremiumPerTrade(plan: OrderPlan, limits: RiskLimits, equity: Option<real>): Option<Breach> {
    if equity.None? then Some(UnknownEquity)
    else if plan.maxLoss > limits.maxPremiumPctPerTrade * equity.value then Some(PremiumPerTradeExceeded)
    else None
  }

  function CheckBuyingPower(plan: OrderPlan, limits: RiskLimits, buyingPower: Option<real>): Option<Breach> {
    if buyingPower.None? then Some(NoBuyingPowerReading)
    else if plan.maxLoss > limits.buyingPowerCap * buyingPower.value then Some(InsufficientBuyingPower)
    else None
  }

  // ---- Leg by leg ---------------------------------------------------------

  /** The leg is a contract that passed the builder's own liquidity check. */
  ghost predicate FromLiquid(leg: Leg, st: Settings) {
    exists c: Contract :: LiquidityRejection(c, st).None? && leg == MakeLeg(c, leg.side, leg.delta)
  }

  lemma LiquidLegPasses(leg: Leg, st: Settings)
    requires FromLiquid(leg, st)
    ensures LegSpreadBreach(leg, FromSettings(st)).None?
    ensures leg.openInterest.Some? && leg.openInterest.value >= st.minOpenInterest
  {
    var c :| LiquidityRejection(c, st).None? && leg == MakeLeg(c, leg.side, leg.delta);
  }

  lemma {:induction false} LiquidLegsPass(legs: seq<Leg>, st: Settings)
    requires forall leg :: leg in legs ==> FromLiquid(leg, st)
    ensures CheckSpread(legs, FromSettings(st)).None? && CheckOpenInterest(legs, FromSettings(st)).None?
  {
    hide FromLiquid, LegSpreadBreach;
    if legs != [] {
      assert legs[0] in legs;
      LiquidLegPasses(legs[0], st);
      LiquidLegsPass(legs[1..], st);
    }
  }

  // ---- The capacity the sizer kept to -------------------------------------

  lemma CostMonotone(k: nat, low: real, high: real)
    requires low <= high
    ensures Cost(k, low) <= Cost(k, high)
  {}

  /** A finished plan passes both capacity checks, provided its loss is no more than the collateral it posts. */
  lemma FinishFits(intent: Intent, legs: seq<Leg>, limitPrice: real, p: Profile, state: SizingState,
                   st: Settings, id: nat, strike: Option<real>)
    requires st.Valid() && (strike.Some? ==> strike.value > 0.0)
    requires Finish(intent, legs, limitPrice, p, state, st, id, strike).Planned?
    ensures var plan := Finish(intent, legs, limitPrice, p, state, st, id, strike).plan;
            && CheckPremiumPerTrade(plan, FromSettings(st), state.equity).None?
            && (intent.strategy != CoveredCall
                && (intent.strategy == CashSecuredPut ==> strike.Some? && p.maxLoss <= strike.value * MULTIPLIER) ==>
                  CheckBuyingPower(plan, FromSettings(st), state.buyingPower).None?)
  {
    hide Size, Fits, Budget, Usable;
    var plan := Finish(intent, legs, limitPrice, p, state, st, id, strike).plan;
    var d := Size(intent.strategy, intent.conviction, p.maxLoss, state, st, strike);
    SizedWhenPositive(intent.strategy, intent.conviction, p.maxLoss, state, st, strike);
    SizeIsGreatestFit(intent.strategy, intent.conviction, p.maxLoss, state, st, strike, plan.qty);
    FitsWithinCaps(plan.qty, intent.strategy, intent.conviction, p.maxLoss, state, st, strike);
    assert plan.maxLoss == Cost(plan.qty, p.maxLoss);
  }

  lemma SizedWhenPositive(strategy: Strategy, conviction: real, maxLoss: real, state: SizingState,
                          st: Settings, strike: Option<real>)
    requires st.Valid() && (strike.Some? ==> strike.value > 0.0)
    requires Size(strategy, conviction, maxLoss, state, st, strike).qty > 0
    ensures Sized(Size(strategy, conviction, maxLoss, state, st, strike))
    ensures HorizonScalar(state, st) > 0.0 && state.equity.Some? && state.equity.value > 0.0 && maxLoss > 0.0
  {
    hide Caps, Budget;
  }

  /** A positive count that fits stays inside the gate's two dollar limits. */
  lemma FitsWithinCaps(k: nat, strategy: Strategy, conviction: real, maxLoss: real, state: SizingState,
                       st: Settings, strike: Option<real>)
    requires st.Valid() && k > 0 && maxLoss > 0.0 && (strike.Some? ==> strike.value > 0.0)
    requires HorizonScalar(state, st) > 0.0 && state.equity.Some? && state.equity.value > 0.0
    requires Fits(k, strategy, conviction, maxLoss, state, st, strike)
    ensures Cost(k, maxLoss) <= st.maxPremiumPctPerTrade * state.equity.value
    ensures strategy != CoveredCall && (strategy == CashSecuredPut ==> strike.Some? && maxLoss <= strike.value * MULTIPLIER)
            ==> state.buyingPower.Some? && Cost(k, maxLoss) <= st.buyingPowerCap * state.buyingPower.value
  {
    hide Budget, Cost;
    var e := state.equity.value;
    assert state == state.(equity := Some(e));
    BudgetFollowsEquity(conviction, state, st, e, e);
    if strategy != CoveredCall && (strategy == CashSecuredPut ==> strike.Some? && maxLoss <= strike.value * MULTIPLIER) {
      var each := Collateral(strategy, maxLoss, strike).value;
      CostMonotone(k, maxLoss, each);
      CostPositive(k, maxLoss);
      PositiveUsable(state.buyingPower.value, st);
    }
  }

  lemma CostPositive(k: nat, each: real)
    requires k > 0 && each > 0.0
    ensures Cost(k, each) > 0.0
  {}

  lemma PositiveUsable(buyingPower: real, st: Settings)
    ensures Usable(buyingPower, st) > 0.0 ==> Usable(buyingPower, st) == st.buyingPowerCap * buyingPower
  {}

  // ---- Agreement ----------------------------------------------------------

  /** Everything the gate's structural checks need to see about a plan's legs. */
  ghost predicate GateReady(plan: OrderPlan, st: Settings) {
    && CheckDefinedRisk(plan).None?
    && forall leg :: leg in plan.legs ==> FromLiquid(leg, st)
  }

  lemma LiquidLeg(c: Contract, side: Side, delta: Option<real>, st: Settings)
    requires LiquidityRejection(c, st).None?
    ensures FromLiquid(MakeLeg(c, side, delta), st)
  {}

  lemma {:induction false} CreditLegsReady(vs: seq<Vertical>, strategy: Strategy, cs: seq<Contract>, st: Settings)
    requires IsCredit(strategy) && Assembled(strategy, vs, cs)
    requires FirstRejection(Contracts(vs), st).None?
    ensures forall leg :: leg in CreditLegs(vs) ==> FromLiquid(leg, st)
    ensures forall t :: CountLegs(CreditLegs(vs), Sell, t) <= CountLegs(CreditLegs(vs), Buy, t)
  {
    ContractsOf(vs);
    VerticalReady(vs[0], st, CreditLegs(vs[1..]));
    if |vs| == 1 {
      assert CreditLegs(vs[1..]) == [];
    } else {
      assert vs[1..][1..] == [] && CreditLegs(vs[1..][1..]) == [];
      VerticalReady(vs[1], st, []);
      assert CreditLegs(vs[1..]) == VerticalLegs(vs[1]) + [];
    }
    assert CreditLegs(vs) == VerticalLegs(vs[0]) + CreditLegs(vs[1..]);
  }

  function VerticalLegs(v: Vertical): seq<Leg> {
    [MakeLeg(v.short, Sell, v.shortDelta), MakeLeg(v.long, Buy, v.longDelta)]
  }

  lemma {:induction false} VerticalReady(v: Vertical, st: Settings, rest: seq<Leg>)
    requires LiquidityRejection(v.short, st).None? && LiquidityRejection(v.long, st).None?
    requires v.short.optionType == v.long.optionType
    ensures forall leg :: leg in VerticalLegs(v) ==> FromLiquid(leg, st)
    ensures forall t :: CountLegs(VerticalLegs(v) + rest, Sell, t) - CountLegs(rest, Sell, t)
                     == CountLegs(VerticalLegs(v) + rest, Buy, t) - CountLegs(rest, Buy, t)
  {
    LiquidLeg(v.short, Sell, v.shortDelta, st);
    LiquidLeg(v.long, Buy, v.longDelta, st);
    var legs := VerticalLegs(v) + rest;
    assert legs[1..][1..] == rest;
  }

  ghost predicate Agrees(plan: OrderPlan, state: SizingState, st: Settings) {
    && GateReady(plan, st)
    && CheckPremiumPerTrade(plan, FromSettings(st), state.equity).None?
    && (plan.strategy != CoveredCall && (plan.strategy == CashSecuredPut ==> plan.limitPrice >= 0.0) ==>
          CheckBuyingPower(plan, FromSettings(st), state.buyingPower).None?)
  }

  lemma {:induction false} CreditFinishAgrees(intent: Intent, vs: seq<Vertical>, cs: seq<Contract>, credit: real,
                                        state: SizingState,
                           st: Settings, id: nat)
    requires st.Valid() && IsCredit(intent.strategy) && Assembled(intent.strategy, vs, cs)
    requires vs != [] && WidestWing(vs) > 0.0 && FirstRejection(Contracts(vs), st).None?
    requires FinishCredit(intent, vs, credit, state, st, id).Planned?
    ensures Agrees(FinishCredit(intent, vs, credit, state, st, id).plan, state, st)
  {
    hide CreditLegs, CountLegs, Finish, FromLiquid, Assembled, WidestWing,
      CheckPremiumPerTrade, CheckBuyingPower, FirstRejection, Contracts, CreditBreakeven;
    CreditLegsReady(vs, intent.strategy, cs, st);
    var p := Profile((WidestWing(vs) - credit) * MULTIPLIER, Some(credit * MULTIPLIER),
                     CreditBreakeven(intent.strategy, vs[0].short.strike, credit));
    FinishFits(intent, CreditLegs(vs), -credit, p, state, st, id, None);
    FinishBacks(intent, CreditLegs(vs), -credit, p, state, st, id, None);
  }

  lemma CreditAgrees(intent: Intent, universe: seq<Contract>, state: SizingState, st: Settings, id: nat, m: Market)
    requires st.Valid() && IsCredit(intent.strategy)
    requires CreditPlan(intent, universe, state, st, id, m).Planned?
    ensures Agrees(CreditPlan(intent, universe, state, st, id, m).plan, state, st)
  {
    hide Best, CreditOffer, FinishCredit, Agrees, FirstRejection, Credit, Assembled, WidestWing, Contracts;
    var inWindow := InWindow(universe, intent, m.today);
    var vs := Best(Expiries(inWindow), CreditOffer(intent, inWindow, st, m)).value.1;
    var expiry := BestCreditIsAssembled(intent, inWindow, st, m);
    BestCreditFacts(intent, inWindow, st, m);
    CreditFinishAgrees(intent, vs, OfExpiry(inWindow, expiry), Credit(vs, st), state, st, id);
  }

  lemma StrangleAgrees(intent: Intent, universe: seq<Contract>, state: SizingState, st: Settings, id: nat, m: Market)
    requires st.Valid() && intent.strategy == LongStrangle
    requires StranglePlan(intent, universe, state, st, id, m).Planned?
    ensures Agrees(StranglePlan(intent, universe, state, st, id, m).plan, state, st)
  {
    hide Best, StrangleOffer, Finish, FromLiquid, CheckPremiumPerTrade, CheckBuyingPower, LiquidityRejection,
      StrangleEntry, CheckDefinedRisk, InWindow, LegFields;
    var inWindow := InWindow(universe, intent, m.today);
    var call, put := BestStrangle(intent, inWindow, st, m);
    var c, q := call.contract, put.contract;
    assert c in [c, q] && q in [c, q];
    var entry := StrangleEntry(c, q, st);
    var first, second := MakeLeg(c, Buy, Some(call.delta)), MakeLeg(q, Buy, Some(put.delta));
    var p := Profile(entry * MULTIPLIER, None, None);
    FinishFits(intent, [first, second], entry, p, state, st, id, None);
    FinishBacks(intent, [first, second], entry, p, state, st, id, None);
    LiquidLeg(c, Buy, Some(call.delta), st);
    LiquidLeg(q, Buy, Some(put.delta), st);
    TwoLegsDefined(StranglePlan(intent, universe, state, st, id, m).plan);
  }

  lemma {:induction false} CountCons(legs: seq<Leg>)
    ensures forall side, t :: CountLegs(legs, side, t)
              == if legs == [] then 0
                 else (if legs[0].side == side && legs[0].optionType == t then 1 else 0) + CountLegs(legs[1..], side, t)
  {}

  lemma OneLegDefined(plan: OrderPlan)
    requires |plan.legs| == 1 && (plan.legs[0].side == Sell ==> IsShortOnly(plan.strategy))
    ensures CheckDefinedRisk(plan).None?
  {
    CountCons(plan.legs);
    CountCons(plan.legs[1..]);
  }

  lemma TwoLegsDefined(plan: OrderPlan)
    requires |plan.legs| == 2 && plan.legs[0].side == Buy
    requires plan.legs[1].side == Sell ==>
               WingProtectedName(plan.strategy) && plan.legs[0].optionType == plan.legs[1].optionType
    ensures CheckDefinedRisk(plan).None?
  {
    CountCons(plan.legs);
    CountCons(plan.legs[1..]);
    CountCons(plan.legs[1..][1..]);
  }

  lemma FunnelFinishAgrees(intent: Intent, primary: Contract, delta: Option<real>, partner: Option<Contract>,
                           legs: seq<Leg>, pd: Option<real>, state: SizingState, holding: Option<Holding>,
                           st: Settings, id: nat, m: Market)
    requires st.Valid() && IsFunnel(intent.strategy)
    requires LiquidityRejection(primary, st).None? && primary.strike > 0.0
    requires partner.Some? <==> IsVertical(intent.strategy)
    requires partner.Some? ==> LiquidityRejection(partner.value, st).None? && partner.value.strike != primary.strike
                               && partner.value.optionType == primary.optionType
    requires legs == if partner.Some? then [MakeLeg(primary, Buy, delta), MakeLeg(partner.value, Sell, pd)]
                     else [MakeLeg(primary, if IsShortOnly(intent.strategy) then Sell else Buy, delta)]
    requires FinishFunnel(intent, primary, partner, legs, state, holding, st, id, m).Planned?
    ensures Agrees(FinishFunnel(intent, primary, partner, legs, state, holding, st, id, m).plan, state, st)
  {
    hide Finish, FromLiquid, CheckPremiumPerTrade, CheckBuyingPower, LiquidityRejection, EntryPrice, CheckDefinedRisk;
    var entry := EntryPrice(intent.strategy, primary, partner, st).value;
    var p := RiskProfile(intent.strategy, primary, partner, entry, m.spot, holding, st).p;
    FinishFits(intent, legs, entry, p, state, st, id, Some(primary.strike));
    FinishBacks(intent, legs, entry, p, state, st, id, Some(primary.strike));
    var plan := FinishFunnel(intent, primary, partner, legs, state, holding, st, id, m).plan;
    LiquidLeg(primary, legs[0].side, delta, st);
    if partner.Some? {
      LiquidLeg(partner.value, Sell, pd, st);
      TwoLegsDefined(plan);
    } else {
      OneLegDefined(plan);
    }
  }

  lemma FunnelAgrees(intent: Intent, universe: seq<Contract>, state: SizingState, holding: Option<Holding>,
                     st: Settings, id: nat, m: Market)
    requires st.Valid() && IsFunnel(intent.strategy)
    requires FunnelPlan(intent, universe, state, holding, st, id, m).Planned?
    ensures Agrees(FunnelPlan(intent, universe, state, holding, st, id, m).plan, state, st)
  {
    hide Agrees, FinishFunnel, Secondary, Primary, LiquidityRejection;
    var candidates := InWindow(OfType(universe, FunnelType(intent.strategy)), intent, m.today);
    var pick := Primary(candidates, FunnelType(intent.strategy), intent, st, m).value;
    var primary, delta := pick.contract, Some(pick.delta);
    var first := MakeLeg(primary, if IsShortOnly(intent.strategy) then Sell else Buy, delta);
    if IsVertical(intent.strategy) {
      var partner := Secondary(intent, OfExpiry(candidates, primary.expiry), primary, st, m).0;
      var pd := EffectiveDelta(partner.value, m);
      FunnelFinishAgrees(intent, primary, delta, partner, [first, MakeLeg(partner.value, Sell, pd)], pd,
                         state, holding, st, id, m);
    } else {
      FunnelFinishAgrees(intent, primary, delta, None, [first], None, state, holding, st, id, m);
    }
  }

  /**
   * Every plan the builder returns passes the gate's defined-risk, open-interest, spread and
   * premium checks under limits read from the same settings and the same account. It passes the
   * buying-power check too, except for a covered call, which posts no collateral when sized, and
   * a cash-secured put sold at a negative price.
   */
  lemma GateAcceptsBuilderPlans(intent: Intent, universe: seq<Contract>, state: SizingState,
                                holding: Option<Holding>, st: Settings, id: nat, m: Market)
    requires st.Valid()
    requires PlanFor(intent, universe, state, holding, st, id, m).Planned?
    ensures var plan := PlanFor(intent, universe, state, holding, st, id, m).plan;
            var limits := FromSettings(st);
            && CheckDefinedRisk(plan).None?
            && CheckOpenInterest(plan.legs, limits).None?
            && CheckSpread(plan.legs, limits).None?
            && CheckPremiumPerTrade(plan, limits, state.equity).None?
            && (plan.strategy != CoveredCall && (plan.strategy == CashSecuredPut ==> plan.limitPrice >= 0.0) ==>
                  CheckBuyingPower(plan, limits, state.buyingPower).None?)
  {
    hide StranglePlan, CreditPlan, FunnelPlan, CheckDefinedRisk, CheckOpenInterest, CheckSpread;
    var named := intent.(strategy := Canonical(intent.strategy));
    if named.strategy == LongStrangle {
      StrangleAgrees(named, universe, state, st, id, m);
    } else if IsCredit(named.strategy) {
      CreditAgrees(named, universe, state, st, id, m);
    } else {
      FunnelAgrees(named, universe, state, holding, st, id, m);
    }
    LiquidLegsPass(PlanFor(intent, universe, state, holding, st, id, m).plan.legs, st);
  }

  /** A nudge of at most half the spread never sells below the bid, so no put is sold at a negative price. */
  lemma ModerateNudgeSellsAtTheBidOrBetter(c: Contract, st: Settings)
    requires st.Valid() && Priced(c) && st.spreadNudgePct <= 0.5
    ensures EntryPrice(CashSecuredPut, c, None, st).value >= Min(c.bid.value, Mid(c)) > 0.0
  {
    var nudge, spread, price := st.spreadNudgePct, Spread(c), EntryPrice(CashSecuredPut, c, None, st).value;
    assert price == Mid(c) - nudge * spread;
    NudgedDown(Mid(c), c.bid.value, nudge, spread);
  }

  lemma NudgedDown(mid: real, bid: real, nudge: real, spread: real)
    requires 0.0 <= nudge <= 0.5 && mid - 0.5 * spread == bid
    ensures mid - nudge * spread >= Min(bid, mid)
  {
    if spread >= 0.0 {
      MulMonotone(nudge, 0.5, spread, spread);
    } else {
      MulMonotone(0.0, nudge, -spread, -spread);
      assert nudge * spread == -(nudge * -spread);
    }
  }
}
