/** Every plan the builder returns loses at most its `maxLoss`, at any expiry price. */
module PlanRisk {
  import opened Models
  import opened Reals
  import opened Sizing
  import opened Selection
  import opened StrategyBuilder
  import opened Payoff

  // ---- The partner leg lands on the right side ---------------------------

  lemma {:induction false} LadderGap(cs: seq<Contract>, a: Contract, b: Contract)
    requires a in cs && b in cs && a.strike < b.strike
    ensures |Ladder(cs)| >= 2 && MinGap(Ladder(cs)) <= b.strike - a.strike
  {
    hide Ladder, MinGap;
    var ladder := Ladder(cs);
    assert a.strike in ladder && b.strike in ladder;
    var i :| 0 <= i < |ladder| && ladder[i] == a.strike;
    var j :| 0 <= j < |ladder| && ladder[j] == b.strike;
    assert i < j;
  }

  /** The short leg is strictly out of the money of the long one, within one increment of the width asked for. */
  lemma {:induction false} PartnerIsOutOfTheMoney(intent: Intent, sameExpiry: seq<Contract>, primary: Contract,
                                        st: Settings, m: Market)
    requires IsVertical(intent.strategy) && primary in sameExpiry
    requires Secondary(intent, sameExpiry, primary, st, m).0.Some?
    ensures var short := Secondary(intent, sameExpiry, primary, st, m).0.value;
            var width := TargetWidth(intent, sameExpiry, st, m, primary.expiry - m.today);
            && (if intent.strategy == DebitCallSpread then primary.strike < short.strike else short.strike < primary.strike)
            && width.Some? && |Ladder(sameExpiry)| >= 2
            && Abs(Abs(primary.strike - short.strike) - width.value) <= MinGap(Ladder(sameExpiry))
  {
    hide TargetWidth, Ladder, MinGap, Secondary;
    var short := Secondary(intent, sameExpiry, primary, st, m).0.value;
    assert short in sameExpiry && short.strike != primary.strike;
    if primary.strike < short.strike { LadderGap(sameExpiry, primary, short); }
    else { LadderGap(sameExpiry, short, primary); }
  }

  // ---- From unit to plan --------------------------------------------------

  /** The plan is `qty` units of a profile whose loss is positive. */
  predicate Backed(plan: OrderPlan, p: Profile) {
    && plan.qty > 0 && p.maxLoss > 0.0
    && plan.maxLoss == p.maxLoss * plan.qty as real
    && (plan.maxProfit.Some? <==> p.maxProfit.Some?)
    && (plan.maxProfit.Some? ==> plan.maxProfit.value == p.maxProfit.value * plan.qty as real)
    && plan.breakeven == p.breakeven
  }

  lemma SizedMeansPositiveLoss(strategy: Strategy, conviction: real, maxLoss: real, state: SizingState,
                               st: Settings, strike: Option<real>)
    requires st.Valid() && (strike.Some? ==> strike.value > 0.0)
    requires Size(strategy, conviction, maxLoss, state, st, strike).qty > 0
    ensures maxLoss > 0.0
  {
    hide Caps, Budget, HorizonScalar;
  }

  lemma FinishBacks(intent: Intent, legs: seq<Leg>, limitPrice: real, p: Profile, state: SizingState,
                    st: Settings, id: nat, strike: Option<real>)
    requires st.Valid() && (strike.Some? ==> strike.value > 0.0)
    requires Finish(intent, legs, limitPrice, p, state, st, id, strike).Planned?
    ensures var plan := Finish(intent, legs, limitPrice, p, state, st, id, strike).plan;
            && Backed(plan, p)
            && plan.legs == legs && plan.limitPrice == limitPrice && plan.strategy == intent.strategy
  {
    hide Size;
    SizedMeansPositiveLoss(intent.strategy, intent.conviction, p.maxLoss, state, st, strike);
  }

  /** What is known of one unit of a plan, for every strategy. */
  ghost predicate UnitFacts(plan: OrderPlan, spot: real, p: Profile) {
    && Backed(plan, p)
    && Bounds(plan.strategy, plan.legs, plan.limitPrice, spot, p)
    && LossAttained(plan.strategy, plan.legs, plan.limitPrice, spot, p)
    && (plan.strategy != CoveredCall ==> ProfitAttained(plan.strategy, plan.legs, plan.limitPrice, spot, p))
    && (plan.strategy != CoveredCall && (plan.strategy == CashSecuredPut ==> plan.limitPrice >= 0.0) ==>
          BreaksEven(plan.strategy, plan.legs, plan.limitPrice, spot, p))
  }

  lemma FunnelFinishFacts(intent: Intent, primary: Contract, delta: Option<real>, partner: Option<Contract>,
                          partnerDelta: Option<real>, state: SizingState, holding: Option<Holding>,
                          st: Settings, id: nat, m: Market) returns (p: Profile)
    requires st.Valid() && IsFunnel(intent.strategy)
    requires Priced(primary) && primary.strike > 0.0 && primary.optionType == FunnelType(intent.strategy)
    requires partner.Some? <==> IsVertical(intent.strategy)
    requires partner.Some? ==>
               var s := partner.value;
               && Priced(s) && s.strike > 0.0 && s.optionType == primary.optionType
               && (if intent.strategy == DebitCallSpread then primary.strike < s.strike else s.strike < primary.strike)
    requires var legs := [MakeLeg(primary, if IsShortOnly(intent.strategy) then Sell else Buy, delta)]
                         + (if partner.Some? then [MakeLeg(partner.value, Sell, partnerDelta)] else []);
             FinishFunnel(intent, primary, partner, legs, state, holding, st, id, m).Planned?
    ensures var legs := [MakeLeg(primary, if IsShortOnly(intent.strategy) then Sell else Buy, delta)]
                        + (if partner.Some? then [MakeLeg(partner.value, Sell, partnerDelta)] else []);
            var plan := FinishFunnel(intent, primary, partner, legs, state, holding, st, id, m).plan;
            UnitFacts(plan, m.spot, p) && plan.strategy == intent.strategy && plan.legs == legs
  {
    hide Bounds, LossAttained, ProfitAttained, BreaksEven, Finish, EntryPrice;
    var first := MakeLeg(primary, if IsShortOnly(intent.strategy) then Sell else Buy, delta);
    var legs := [first] + (if partner.Some? then [MakeLeg(partner.value, Sell, partnerDelta)] else []);
    var entry := EntryPrice(intent.strategy, primary, partner, st).value;
    p := RiskProfile(intent.strategy, primary, partner, entry, m.spot, holding, st).p;
    FinishBacks(intent, legs, entry, p, state, st, id, Some(primary.strike));
    if IsVertical(intent.strategy) {
      DebitUnit(intent.strategy, primary, partner.value, delta, partnerDelta, entry, m.spot);
      assert legs == [first, MakeLeg(partner.value, Sell, partnerDelta)];
    } else {
      assert legs == [first];
      if intent.strategy == CoveredCall {
        CoveredCallUnit(primary, delta, entry, m.spot);
      } else if intent.strategy == CashSecuredPut {
        CashSecuredPutUnit(primary, delta, entry, m.spot);
      } else {
        LongUnit(intent.strategy, primary, delta, entry, m.spot);
        NoProfitClaimed(intent.strategy, legs, entry, m.spot, p);
      }
    }
  }

  lemma NoProfitClaimed(strategy: Strategy, legs: seq<Leg>, limitPrice: real, spot: real, p: Profile)
    requires p.maxProfit.None?
    ensures ProfitAttained(strategy, legs, limitPrice, spot, p)
  {}

  lemma FunnelFacts(intent: Intent, universe: seq<Contract>, state: SizingState, holding: Option<Holding>,
                    st: Settings, id: nat, m: Market) returns (p: Profile)
    requires st.Valid() && IsFunnel(intent.strategy)
    requires FunnelPlan(intent, universe, state, holding, st, id, m).Planned?
    ensures UnitFacts(FunnelPlan(intent, universe, state, holding, st, id, m).plan, m.spot, p)
  {
    hide UnitFacts, FinishFunnel, Secondary, Primary, LiquidityRejection;
    var candidates := InWindow(OfType(universe, FunnelType(intent.strategy)), intent, m.today);
    var pick := Primary(candidates, FunnelType(intent.strategy), intent, st, m).value;
    var primary, delta := pick.contract, Some(pick.delta);
    var first := MakeLeg(primary, if IsShortOnly(intent.strategy) then Sell else Buy, delta);
    if IsVertical(intent.strategy) {
      var sameExpiry := OfExpiry(candidates, primary.expiry);
      PartnerIsOutOfTheMoney(intent, sameExpiry, primary, st, m);
      var partner := Secondary(intent, sameExpiry, primary, st, m).0;
      var pd := EffectiveDelta(partner.value, m);
      assert [first] + [MakeLeg(partner.value, Sell, pd)] == [first, MakeLeg(partner.value, Sell, pd)];
      p := FunnelFinishFacts(intent, primary, delta, partner, pd, state, holding, st, id, m);
    } else {
      assert [first] + [] == [first];
      p := FunnelFinishFacts(intent, primary, delta, None, None, state, holding, st, id, m);
    }
  }

  lemma StrangleFacts(intent: Intent, universe: seq<Contract>, state: SizingState, st: Settings, id: nat, m: Market)
    returns (p: Profile)
    requires st.Valid() && intent.strategy == LongStrangle
    requires StranglePlan(intent, universe, state, st, id, m).Planned?
    ensures UnitFacts(StranglePlan(intent, universe, state, st, id, m).plan, m.spot, p)
  {
    var inWindow := InWindow(universe, intent, m.today);
    var call, put := BestStrangle(intent, inWindow, st, m);
    p := StrangleFinishFacts(intent, call, put, state, st, id, m.spot);
  }

  lemma BestStrangle(intent: Intent, inWindow: seq<Contract>, st: Settings, m: Market) returns (call: Pick, put: Pick)
    requires Best(Expiries(inWindow), StrangleOffer(intent, inWindow, st, m)).Some?
    ensures Best(Expiries(inWindow), StrangleOffer(intent, inWindow, st, m)).value.1 == (call, put)
    ensures call.contract in inWindow && put.contract in inWindow
    ensures call.contract.optionType == Call && put.contract.optionType == Put
    ensures put.contract.strike < call.contract.strike
    ensures call.contract.expiry == put.contract.expiry
  {
    hide Best, Closest, Penalty;
    var offer := StrangleOffer(intent, inWindow, st, m);
    var best := Best(Expiries(inWindow), offer);
    var e :| e in Expiries(inWindow) && offer(e) == best;
    call, put := best.value.1.0, best.value.1.1;
  }

  lemma StrangleFinishFacts(intent: Intent, call: Pick, put: Pick, state: SizingState, st: Settings, id: nat,
                            spot: real)
    returns (p: Profile)
    requires st.Valid() && intent.strategy == LongStrangle
    requires call.contract.optionType == Call && put.contract.optionType == Put
    requires put.contract.strike < call.contract.strike
    requires FinishStrangle(intent, call, put, state, st, id).Planned?
    ensures var plan := FinishStrangle(intent, call, put, state, st, id).plan;
            && UnitFacts(plan, spot, p)
            && plan.legs == [MakeLeg(call.contract, Buy, Some(call.delta)), MakeLeg(put.contract, Buy, Some(put.delta))]
  {
    hide Bounds, LossAttained, ProfitAttained, BreaksEven, Finish, LiquidityRejection, StrangleEntry;
    var c, q := call.contract, put.contract;
    assert c in [c, q] && q in [c, q];
    var entry := StrangleEntry(c, q, st);
    p := Profile(entry * MULTIPLIER, None, None);
    var legs := [MakeLeg(c, Buy, Some(call.delta)), MakeLeg(q, Buy, Some(put.delta))];
    FinishBacks(intent, legs, entry, p, state, st, id, None);
    StrangleUnit(c, q, Some(call.delta), Some(put.delta), entry, spot);
    NoProfitClaimed(LongStrangle, legs, entry, spot, p);
    NoBreakevenClaimed(LongStrangle, legs, entry, spot, p);
  }

  lemma NoBreakevenClaimed(strategy: Strategy, legs: seq<Leg>, limitPrice: real, spot: real, p: Profile)
    requires p.breakeven.None?
    ensures BreaksEven(strategy, legs, limitPrice, spot, p)
  {}

  lemma CreditFacts(intent: Intent, universe: seq<Contract>, state: SizingState, st: Settings, id: nat, m: Market)
    returns (p: Profile)
    requires st.Valid() && IsCredit(intent.strategy)
    requires CreditPlan(intent, universe, state, st, id, m).Planned?
    ensures UnitFacts(CreditPlan(intent, universe, state, st, id, m).plan, m.spot, p)
  {
    hide Best, CreditOffer, FinishCredit, UnitFacts, FirstRejection, Credit;
    var inWindow := InWindow(universe, intent, m.today);
    var vs := Best(Expiries(inWindow), CreditOffer(intent, inWindow, st, m)).value.1;
    var expiry := BestCreditIsAssembled(intent, inWindow, st, m);
    BestCreditFacts(intent, inWindow, st, m);
    p := CreditFinishFacts(intent, vs, OfExpiry(inWindow, expiry), Credit(vs, st), state, st, id, m.spot);
  }

  lemma CreditFinishFacts(intent: Intent, vs: seq<Vertical>, cs: seq<Contract>, credit: real, state: SizingState,
                          st: Settings, id: nat, spot: real) returns (p: Profile)
    requires st.Valid() && IsCredit(intent.strategy) && Assembled(intent.strategy, vs, cs)
    requires vs != [] && WidestWing(vs) > 0.0
    requires FinishCredit(intent, vs, credit, state, st, id).Planned?
    ensures var plan := FinishCredit(intent, vs, credit, state, st, id).plan;
            && UnitFacts(plan, spot, p) && plan.legs == CreditLegs(vs) && plan.limitPrice == -credit
  {
    hide Bounds, LossAttained, ProfitAttained, BreaksEven, Finish, CreditLegs, WidestWing;
    p := Profile((WidestWing(vs) - credit) * MULTIPLIER, Some(credit * MULTIPLIER),
                 CreditBreakeven(intent.strategy, vs[0].short.strike, credit));
    FinishBacks(intent, CreditLegs(vs), -credit, p, state, st, id, None);
    CreditUnit(intent.strategy, vs, cs, credit, spot);
  }

  lemma PlanFacts(intent: Intent, universe: seq<Contract>, state: SizingState, holding: Option<Holding>,
                  st: Settings, id: nat, m: Market) returns (p: Profile)
    requires st.Valid()
    requires PlanFor(intent, universe, state, holding, st, id, m).Planned?
    ensures UnitFacts(PlanFor(intent, universe, state, holding, st, id, m).plan, m.spot, p)
  {
    hide UnitFacts, StranglePlan, CreditPlan, FunnelPlan;
    var named := intent.(strategy := Canonical(intent.strategy));
    if named.strategy == LongStrangle {
      p := StrangleFacts(named, universe, state, st, id, m);
    } else if IsCredit(named.strategy) {
      p := CreditFacts(named, universe, state, st, id, m);
    } else {
      p := FunnelFacts(named, universe, state, holding, st, id, m);
    }
  }

  // ---- The claims, over every intent, chain, account and price ------------

  lemma ScaleBound(a: real, b: real, q: nat)
    requires a <= b
    ensures a * q as real <= b * q as real
  {}

  /**
   * Held to expiry at any non-negative price, a plan's profit and loss stays within
   * [-maxLoss, maxProfit] (no upper end where none is claimed), and the loss end is reached.
   */
  lemma PlanPnlEnvelope(intent: Intent, universe: seq<Contract>, state: SizingState, holding: Option<Holding>,
                        st: Settings, id: nat, m: Market)
    requires st.Valid()
    requires PlanFor(intent, universe, state, holding, st, id, m).Planned?
    ensures var plan := PlanFor(intent, universe, state, holding, st, id, m).plan;
            && plan.maxLoss > 0.0
            && (forall price | price >= 0.0 ::
                  && -plan.maxLoss <= Pnl(plan, m.spot, price)
                  && (plan.maxProfit.Some? ==> Pnl(plan, m.spot, price) <= plan.maxProfit.value))
            && (exists price :: price >= 0.0 && Pnl(plan, m.spot, price) == -plan.maxLoss)
  {
    hide PlanFor, UnitPnl;
    var plan := PlanFor(intent, universe, state, holding, st, id, m).plan;
    var p := PlanFacts(intent, universe, state, holding, st, id, m);
    var q := plan.qty;
    MulPositive(p.maxLoss, q as real);
    forall price | price >= 0.0
      ensures -plan.maxLoss <= Pnl(plan, m.spot, price)
      ensures plan.maxProfit.Some? ==> Pnl(plan, m.spot, price) <= plan.maxProfit.value
    {
      var unit := UnitPnl(plan.strategy, plan.legs, plan.limitPrice, m.spot, price);
      ScaleBound(-p.maxLoss, unit, q);
      if p.maxProfit.Some? { ScaleBound(unit, p.maxProfit.value, q); }
    }
    var worst :| worst >= 0.0 && UnitPnl(plan.strategy, plan.legs, plan.limitPrice, m.spot, worst) == -p.maxLoss;
    assert Pnl(plan, m.spot, worst) == -plan.maxLoss;
  }

  /**
   * Outside covered calls the stated best case is reached, and a stated breakeven makes exactly
   * nothing. (A cash-secured put needs a premium that is not negative.)
   */
  lemma PlanProfitAndBreakeven(intent: Intent, universe: seq<Contract>, state: SizingState, holding: Option<Holding>,
                               st: Settings, id: nat, m: Market)
    requires st.Valid()
    requires PlanFor(intent, universe, state, holding, st, id, m).Planned?
    ensures var plan := PlanFor(intent, universe, state, holding, st, id, m).plan;
            plan.strategy != CoveredCall ==>
              && (plan.maxProfit.Some? ==>
                    exists price :: price >= 0.0 && Pnl(plan, m.spot, price) == plan.maxProfit.value)
              && (plan.breakeven.Some? && (plan.strategy == CashSecuredPut ==> plan.limitPrice >= 0.0) ==>
                    Pnl(plan, m.spot, plan.breakeven.value) == 0.0)
  {
    hide PlanFor, UnitPnl;
    var plan := PlanFor(intent, universe, state, holding, st, id, m).plan;
    var p := PlanFacts(intent, universe, state, holding, st, id, m);
    if plan.strategy != CoveredCall && p.maxProfit.Some? {
      var best :| best >= 0.0 && UnitPnl(plan.strategy, plan.legs, plan.limitPrice, m.spot, best) == p.maxProfit.value;
      assert Pnl(plan, m.spot, best) == plan.maxProfit.value;
    }
  }

  // ---- A covered call is covered only by the shares actually held ---------

  /** A covered-call plan against `shares` shares bought at `spot`: at most a hundred per contract serve as cover. */
  function PnlWithShares(plan: OrderPlan, spot: real, shares: real, price: real): real {
    Pnl(plan, spot, price) - Max(0.0, plan.qty as real * MULTIPLIER - shares) * (price - spot)
  }

  lemma CoveredCallFinish(intent: Intent, c: Contract, delta: real, state: SizingState, holding: Option<Holding>,
                          st: Settings, id: nat, m: Market) returns (entry: real)
    requires st.Valid() && intent.strategy == CoveredCall && Priced(c) && c.strike > 0.0 && c.optionType == Call
    requires FinishFunnel(intent, c, None, [MakeLeg(c, Sell, Some(delta))], state, holding, st, id, m).Planned?
    ensures WritesCall(FinishFunnel(intent, c, None, [MakeLeg(c, Sell, Some(delta))], state, holding, st, id, m).plan,
                       c, entry, m.spot)
  {
    hide Finish, EntryPrice;
    entry := EntryPrice(CoveredCall, c, None, st).value;
    var p := RiskProfile(CoveredCall, c, None, entry, m.spot, holding, st).p;
    FinishBacks(intent, [MakeLeg(c, Sell, Some(delta))], entry, p, state, st, id, Some(c.strike));
  }

  lemma CoveredCallPlanIs(intent: Intent, universe: seq<Contract>, state: SizingState, holding: Option<Holding>,
                          st: Settings, id: nat, m: Market) returns (c: Contract, entry: real)
    requires st.Valid() && intent.strategy == CoveredCall
    requires FunnelPlan(intent, universe, state, holding, st, id, m).Planned?
    ensures WritesCall(FunnelPlan(intent, universe, state, holding, st, id, m).plan, c, entry, m.spot)
  {
    hide FinishFunnel, Primary, WritesCall, Secondary;
    var candidates := InWindow(OfType(universe, Call), intent, m.today);
    var pick := Primary(candidates, Call, intent, st, m).value;
    c := pick.contract;
    entry := CoveredCallFinish(intent, c, pick.delta, state, holding, st, id, m);
  }

  /** The stated max loss bounds a covered-call plan exactly when there are a hundred shares for every contract. */
  lemma CoveredCallBoundedIffCovered(intent: Intent, universe: seq<Contract>, state: SizingState,
                                     holding: Option<Holding>, st: Settings, id: nat, m: Market, shares: real)
    requires st.Valid() && intent.strategy == CoveredCall
    requires FunnelPlan(intent, universe, state, holding, st, id, m).Planned?
    requires 0.0 <= shares && 0.0 < m.spot
    ensures var plan := FunnelPlan(intent, universe, state, holding, st, id, m).plan;
            (forall price | price >= 0.0 :: -plan.maxLoss <= PnlWithShares(plan, m.spot, shares, price))
            <==> shares >= plan.qty as real * MULTIPLIER
  {
    hide FunnelPlan, PnlWithShares;
    var plan := FunnelPlan(intent, universe, state, holding, st, id, m).plan;
    var c, entry := CoveredCallPlanIs(intent, universe, state, holding, st, id, m);
    if shares >= plan.qty as real * MULTIPLIER {
      forall price | price >= 0.0 ensures -plan.maxLoss <= PnlWithShares(plan, m.spot, shares, price) {
        CoveredIsBounded(plan, c, entry, m.spot, shares, price);
      }
    } else {
      var price := UncoveredLoss(plan, c, entry, m.spot, shares);
    }
  }

  lemma ScaleEqual(a: real, b: real, q: nat)
    requires q > 0
    ensures a * q as real == b * q as real <==> a == b
  {
    if a < b { MulPositive(b - a, q as real); }
    if b < a { MulPositive(a - b, q as real); }
  }

  /**
   * A covered call reaches its stated best case exactly when it is written at or above spot, and
   * makes nothing at its stated breakeven exactly when that lies at or below the strike.
   */
  lemma CoveredCallPromisesIff(intent: Intent, universe: seq<Contract>, state: SizingState, holding: Option<Holding>,
                               st: Settings, id: nat, m: Market) returns (c: Contract, entry: real)
    requires st.Valid() && intent.strategy == CoveredCall
    requires FunnelPlan(intent, universe, state, holding, st, id, m).Planned?
    ensures var plan := FunnelPlan(intent, universe, state, holding, st, id, m).plan;
            && WritesCall(plan, c, entry, m.spot) && plan.maxProfit.Some? && plan.breakeven.Some?
            && ((exists price :: price >= 0.0 && Pnl(plan, m.spot, price) == plan.maxProfit.value) <==> m.spot <= c.strike)
            && (Pnl(plan, m.spot, plan.breakeven.value) == 0.0 <==> m.spot - entry <= c.strike)
  {
    var p: Profile;
    hide FunnelPlan, UnitPnl, CoveredCallProfit;
    c, entry, p := CoveredCallProfile(intent, universe, state, holding, st, id, m);
    var plan := FunnelPlan(intent, universe, state, holding, st, id, m).plan;
    assert plan.legs == [MakeLeg(c, Sell, plan.legs[0].delta)];
    CoveredCallUnit(c, plan.legs[0].delta, entry, m.spot);
    forall price
      ensures Pnl(plan, m.spot, price) == plan.maxProfit.value
         <==> UnitPnl(CoveredCall, plan.legs, entry, m.spot, price) == p.maxProfit.value
    {
      ScaleEqual(UnitPnl(CoveredCall, plan.legs, entry, m.spot, price), p.maxProfit.value, plan.qty);
    }
    ScaleEqual(UnitPnl(CoveredCall, plan.legs, entry, m.spot, plan.breakeven.value), 0.0, plan.qty);
  }

  lemma CoveredCallProfile(intent: Intent, universe: seq<Contract>, state: SizingState, holding: Option<Holding>,
                           st: Settings, id: nat, m: Market) returns (c: Contract, entry: real, p: Profile)
    requires st.Valid() && intent.strategy == CoveredCall
    requires FunnelPlan(intent, universe, state, holding, st, id, m).Planned?
    ensures var plan := FunnelPlan(intent, universe, state, holding, st, id, m).plan;
            && WritesCall(plan, c, entry, m.spot) && Backed(plan, p)
            && p == Profile((m.spot - entry) * MULTIPLIER, Some(CoveredCallProfit(c.strike, m.spot, entry)), Some(m.spot - entry))
  {
    hide FinishFunnel, Primary, WritesCall, Secondary, Backed, CoveredCallProfit;
    var pick := Primary(InWindow(OfType(universe, Call), intent, m.today), Call, intent, st, m).value;
    c := pick.contract;
    entry, p := CoveredCallFinishProfile(intent, c, pick.delta, state, holding, st, id, m);
  }

  lemma CoveredCallFinishProfile(intent: Intent, c: Contract, delta: real, state: SizingState, holding: Option<Holding>,
                                 st: Settings, id: nat, m: Market) returns (entry: real, p: Profile)
    requires st.Valid() && intent.strategy == CoveredCall && Priced(c) && c.strike > 0.0 && c.optionType == Call
    requires FinishFunnel(intent, c, None, [MakeLeg(c, Sell, Some(delta))], state, holding, st, id, m).Planned?
    ensures var plan := FinishFunnel(intent, c, None, [MakeLeg(c, Sell, Some(delta))], state, holding, st, id, m).plan;
            && WritesCall(plan, c, entry, m.spot) && Backed(plan, p)
            && p == Profile((m.spot - entry) * MULTIPLIER, Some(CoveredCallProfit(c.strike, m.spot, entry)), Some(m.spot - entry))
  {
    hide Finish, EntryPrice;
    entry := EntryPrice(CoveredCall, c, None, st).value;
    p := RiskProfile(CoveredCall, c, None, entry, m.spot, holding, st).p;
    SpotLessEntry(m.spot, entry);
    FinishBacks(intent, [MakeLeg(c, Sell, Some(delta))], entry, p, state, st, id, Some(c.strike));
  }

  // ---- The same condition, before the call --------------------------------

  /** The contract a one-leg short strategy writes, settled before any sizing. */
  function Written(intent: Intent, universe: seq<Contract>, st: Settings, m: Market): Option<Pick>
    requires IsShortOnly(intent.strategy)
  {
    var t := FunnelType(intent.strategy);
    Primary(InWindow(OfType(universe, t), intent, m.today), t, intent, st, m)
  }

  /** Dollars one written contract is said to risk. */
  function ShortMaxLoss(strategy: Strategy, c: Contract, entry: real, spot: real): real {
    ((if strategy == CoveredCall then spot else c.strike) - entry) * MULTIPLIER
  }

  /** What the builder does with `pick` once it is chosen: the account enters in the last step only. */
  lemma ShortFinish(intent: Intent, c: Contract, delta: real, planned: SizingState, holding: Option<Holding>,
                    st: Settings, id: nat, m: Market) returns (p: Profile)
    requires st.Valid() && IsShortOnly(intent.strategy) && Priced(c) && c.strike > 0.0
    requires FinishFunnel(intent, c, None, [MakeLeg(c, Sell, Some(delta))], planned, holding, st, id, m).Planned?
    ensures EntryPrice(intent.strategy, c, None, st).Some?
    ensures var entry := EntryPrice(intent.strategy, c, None, st).value;
            && p.maxLoss == ShortMaxLoss(intent.strategy, c, entry, m.spot) > 0.0
            && forall state ::
                 FinishFunnel(intent, c, None, [MakeLeg(c, Sell, Some(delta))], state, holding, st, id, m)
                 == Finish(intent, [MakeLeg(c, Sell, Some(delta))], entry, p, state, st, id, Some(c.strike))
  {
    hide Finish;
    var entry := EntryPrice(intent.strategy, c, None, st).value;
    p := RiskProfile(intent.strategy, c, None, entry, m.spot, holding, st).p;
    SpotLessEntry(m.spot, entry);
  }

  lemma SpotLessEntry(spot: real, entry: real)
    ensures spot * MULTIPLIER - entry * MULTIPLIER == (spot - entry) * MULTIPLIER
  {}

  lemma ShortPlan(intent: Intent, universe: seq<Contract>, planned: SizingState, holding: Option<Holding>,
                  st: Settings, id: nat, m: Market) returns (legs: seq<Leg>, p: Profile)
    requires st.Valid() && IsShortOnly(intent.strategy)
    requires FunnelPlan(intent, universe, planned, holding, st, id, m).Planned?
    ensures Written(intent, universe, st, m).Some?
    ensures var c := Written(intent, universe, st, m).value.contract;
            && Priced(c) && c.strike > 0.0 && EntryPrice(intent.strategy, c, None, st).Some?
            && var entry := EntryPrice(intent.strategy, c, None, st).value;
               p.maxLoss == ShortMaxLoss(intent.strategy, c, entry, m.spot) > 0.0
               && forall state ::
                    FunnelPlan(intent, universe, state, holding, st, id, m)
                    == Finish(intent, legs, entry, p, state, st, id, Some(c.strike))
  {
    hide Finish, FinishFunnel, Primary, Secondary, EntryPrice, ShortMaxLoss;
    var pick := Written(intent, universe, st, m).value;
    legs := [MakeLeg(pick.contract, Sell, Some(pick.delta))];
    p := ShortFinish(intent, pick.contract, pick.delta, planned, holding, st, id, m);
  }

  /**
   * The stated max loss bounds a covered call on shares covering `n` contracts exactly when the
   * account's risk budget does not carry one contract more.
   */
  lemma CoveredCallBoundedIffBudgetStops(intent: Intent, universe: seq<Contract>, state: SizingState,
                                         holding: Option<Holding>, st: Settings, id: nat, m: Market, shares: real, n: nat)
    requires st.Valid() && intent.strategy == CoveredCall && 0.0 < m.spot
    requires FunnelPlan(intent, universe, state, holding, st, id, m).Planned?
    requires n as real * MULTIPLIER <= shares < (n + 1) as real * MULTIPLIER
    ensures Written(intent, universe, st, m).Some?
    ensures var c := Written(intent, universe, st, m).value.contract;
            && Priced(c) && c.strike > 0.0 && EntryPrice(CoveredCall, c, None, st).Some?
            && var each := ShortMaxLoss(CoveredCall, c, EntryPrice(CoveredCall, c, None, st).value, m.spot);
               var plan := FunnelPlan(intent, universe, state, holding, st, id, m).plan;
               ((forall price | price >= 0.0 :: -plan.maxLoss <= PnlWithShares(plan, m.spot, shares, price))
                <==> !Fits(n + 1, CoveredCall, intent.conviction, each, state, st, Some(c.strike)))
  {
    hide FunnelPlan, Written, PnlWithShares, EntryPrice, ShortMaxLoss, Fits, Size;
    var legs, p := ShortPlan(intent, universe, state, holding, st, id, m);
    CoveredCallBoundedIffCovered(intent, universe, state, holding, st, id, m, shares);
    var c := Written(intent, universe, st, m).value.contract;
    var qty := Size(CoveredCall, intent.conviction, p.maxLoss, state, st, Some(c.strike)).qty;
    assert FunnelPlan(intent, universe, state, holding, st, id, m).plan.qty == qty;
    SizedMeansSized(CoveredCall, intent.conviction, p.maxLoss, state, st, Some(c.strike));
    SizeIsGreatestFit(CoveredCall, intent.conviction, p.maxLoss, state, st, Some(c.strike), n + 1);
    CoverCounts(shares, n, qty);
  }

  lemma SizedMeansSized(strategy: Strategy, conviction: real, maxLoss: real, state: SizingState,
                        st: Settings, strike: Option<real>)
    requires st.Valid() && (strike.Some? ==> strike.value > 0.0)
    requires Size(strategy, conviction, maxLoss, state, st, strike).qty > 0
    ensures Sized(Size(strategy, conviction, maxLoss, state, st, strike))
  {
    hide Caps, Budget;
  }

  lemma CoverCounts(shares: real, n: nat, qty: nat)
    requires n as real * MULTIPLIER <= shares < (n + 1) as real * MULTIPLIER
    ensures shares >= qty as real * MULTIPLIER <==> qty <= n
  {}

  /** What `CoveredCallPlanIs` establishes. */
  predicate WritesCall(plan: OrderPlan, c: Contract, entry: real, spot: real) {
    && plan.strategy == CoveredCall && plan.limitPrice == entry && plan.qty > 0
    && |plan.legs| == 1 && plan.legs[0] == MakeLeg(c, Sell, plan.legs[0].delta)
    && c.optionType == Call && c.strike > 0.0
    && plan.maxLoss == (spot - entry) * MULTIPLIER * plan.qty as real
  }

  lemma CoveredIsBounded(plan: OrderPlan, c: Contract, entry: real, spot: real, shares: real, price: real)
    requires WritesCall(plan, c, entry, spot) && shares >= plan.qty as real * MULTIPLIER && price >= 0.0
    ensures -plan.maxLoss <= PnlWithShares(plan, spot, shares, price)
  {
    assert plan.legs == [MakeLeg(c, Sell, plan.legs[0].delta)];
    CoveredCallUnit(c, plan.legs[0].delta, entry, spot);
    ScaleBound(-((spot - entry) * MULTIPLIER), UnitPnl(CoveredCall, plan.legs, entry, spot, price), plan.qty);
  }

  /** Short of cover, a high enough price loses more than the stated max loss. */
  lemma UncoveredLoss(plan: OrderPlan, c: Contract, entry: real, spot: real, shares: real) returns (price: real)
    requires WritesCall(plan, c, entry, spot)
    requires spot > 0.0 && 0.0 <= shares < plan.qty as real * MULTIPLIER
    ensures price >= 0.0 && PnlWithShares(plan, spot, shares, price) < -plan.maxLoss
  {
    var n := plan.qty as real * MULTIPLIER;
    var missing := n - shares;
    var x := n * c.strike / missing;
    assert x * missing == n * c.strike;
    MulPositive(n, c.strike);
    SignOfProduct(x, missing);
    price := spot + (c.strike + 1.0 + x);
    CappedGain(plan, c, entry, spot, price);
    Distribute(missing, c.strike + 1.0, x);
    MulPositive(missing, c.strike + 1.0);
  }

  /** Above the strike a covered unit stops gaining. */
  lemma CappedGain(plan: OrderPlan, c: Contract, entry: real, spot: real, price: real)
    requires WritesCall(plan, c, entry, spot) && price >= c.strike
    ensures Pnl(plan, spot, price) + plan.maxLoss == plan.qty as real * MULTIPLIER * c.strike
  {
    hide LegsValue;
    assert plan.legs == [MakeLeg(c, Sell, plan.legs[0].delta)];
    OneLeg(plan.legs[0], price);
    var unit := UnitPnl(CoveredCall, plan.legs, entry, spot, price);
    assert unit == (c.strike + entry - spot) * MULTIPLIER;
    Distribute(plan.qty as real, unit, (spot - entry) * MULTIPLIER);
  }
}
