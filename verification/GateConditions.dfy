/** Exactly which structures are sure to pass the gate's buying-power check once the builder has sized them. */
module GateConditions {
  import opened Models
  import opened Reals
  import opened Sizing
  import opened Selection
  import opened StrategyBuilder
  import opened PlanRisk
  import opened RiskGate

  /** An account with no history: every baseline unknown, so the risk fraction does not depend on its equity. */
  function Plain(equity: real, buyingPower: real, cash: real): SizingState {
    SizingState(Some(equity), Some(buyingPower), Some(cash), None, None, None, None, false, 1.0)
  }

  lemma PlainFraction(conviction: real, st: Settings, equity: real, buyingPower: real, cash: real)
    requires st.Valid() && equity > 0.0
    ensures RiskFraction(conviction, Plain(equity, buyingPower, cash), st) == RiskFraction(conviction, Plain(1.0, 0.0, 0.0), st) > 0.0
  {
    hide ConvictionScalar, Product;
    var one, state := Plain(1.0, 0.0, 0.0), Plain(equity, buyingPower, cash);
    assert Scalars(conviction, state, st) == Scalars(conviction, one, st);
    assert one == one.(equity := Some(1.0));
    BudgetFollowsEquity(conviction, one, st, 1.0, 1.0);
    assert Budget(conviction, one, st) == RiskFraction(conviction, one, st) * 1.0;
  }

  /** Some equity carries a risk budget of at least one contract. */
  lemma EnoughEquity(conviction: real, maxLoss: real, st: Settings, buyingPower: real,
                     cash: real) returns (equity: real)
    requires st.Valid() && maxLoss > 0.0
    ensures equity > 0.0 && Budget(conviction, Plain(equity, buyingPower, cash), st) >= maxLoss
  {
    var fraction := RiskFraction(conviction, Plain(1.0, 0.0, 0.0), st);
    PlainFraction(conviction, st, 1.0, 0.0, 0.0);
    equity := maxLoss / fraction;
    assert fraction * equity == maxLoss;
    SignOfProduct(equity, fraction);
    PlainFraction(conviction, st, equity, buyingPower, cash);
  }

  /** A covered call can always be sized on an account whose options buying power is nil. */
  lemma CallOnNoBuyingPower(intent: Intent, legs: seq<Leg>, limitPrice: real, p: Profile, st: Settings, id: nat,
                            strike: Option<real>)
    returns (state: SizingState)
    requires st.Valid() && (strike.Some? ==> strike.value > 0.0) && p.maxLoss > 0.0
    requires intent.strategy == CoveredCall
    ensures TurnedAway(intent, legs, limitPrice, p, state, st, id, strike)
  {
    hide Budget, Size;
    var equity := EnoughEquity(intent.conviction, p.maxLoss, st, 0.0, 0.0);
    state := Plain(equity, 0.0, 0.0);
    SizedExactlyWhenKnown(intent.strategy, intent.conviction, p.maxLoss, state, st, strike);
    SizeIsGreatestFit(intent.strategy, intent.conviction, p.maxLoss, state, st, strike, 1);
    var qty := Size(intent.strategy, intent.conviction, p.maxLoss, state, st, strike).qty;
    MulPositive(p.maxLoss, qty as real);
  }

  /** Buying power and cash for exactly one put: sized at one, and short of a loss beyond the strike. */
  lemma PutOnOneStrike(intent: Intent, legs: seq<Leg>, limitPrice: real, p: Profile, st: Settings, id: nat,
                       strike: real)
    returns (state: SizingState)
    requires st.Valid() && strike > 0.0 && intent.strategy == CashSecuredPut
    requires p.maxLoss > strike * MULTIPLIER
    ensures TurnedAway(intent, legs, limitPrice, p, state, st, id, Some(strike))
  {
    hide Budget, Size;
    var each := strike * MULTIPLIER;
    var buyingPower := each / st.buyingPowerCap;
    assert st.buyingPowerCap * buyingPower == each;
    SignOfProduct(buyingPower, st.buyingPowerCap);
    var equity := EnoughEquity(intent.conviction, p.maxLoss, st, buyingPower, each);
    state := Plain(equity, buyingPower, each);
    assert Usable(buyingPower, st) == each;
    SizedExactlyWhenKnown(intent.strategy, intent.conviction, p.maxLoss, state, st, Some(strike));
    SizeIsGreatestFit(intent.strategy, intent.conviction, p.maxLoss, state, st, Some(strike), 1);
    SizeIsGreatestFit(intent.strategy, intent.conviction, p.maxLoss, state, st, Some(strike), 2);
    assert Size(intent.strategy, intent.conviction, p.maxLoss, state, st, Some(strike)).qty == 1;
  }

  /** The builder plans it on this account and the gate then refuses it for buying power. */
  ghost predicate TurnedAway(intent: Intent, legs: seq<Leg>, limitPrice: real, p: Profile, state: SizingState,
                          st: Settings, id: nat, strike: Option<real>)
    requires st.Valid() && (strike.Some? ==> strike.value > 0.0)
  {
    var outcome := Finish(intent, legs, limitPrice, p, state, st, id, strike);
    outcome.Planned? && CheckBuyingPower(outcome.plan, FromSettings(st), state.buyingPower).Some?
  }

  /**
   * No account ever sees a built plan refused for buying power, exactly when the plan is not a
   * covered call and is not a cash-secured put sold below zero.
   */
  lemma NeverRefusedIff(intent: Intent, legs: seq<Leg>, limitPrice: real, p: Profile, st: Settings, id: nat,
                        strike: Option<real>)
    requires st.Valid() && (strike.Some? ==> strike.value > 0.0) && p.maxLoss > 0.0
    requires intent.strategy == CashSecuredPut ==> strike.Some? && p.maxLoss == (strike.value - limitPrice) * MULTIPLIER
    ensures (forall state :: !TurnedAway(intent, legs, limitPrice, p, state, st, id, strike))
       <==> intent.strategy != CoveredCall && (intent.strategy == CashSecuredPut ==> limitPrice >= 0.0)
  {
    if intent.strategy == CoveredCall {
      var state := CallOnNoBuyingPower(intent, legs, limitPrice, p, st, id, strike);
    } else if intent.strategy == CashSecuredPut && limitPrice < 0.0 {
      var state := PutOnOneStrike(intent, legs, limitPrice, p, st, id, strike.value);
    } else {
      forall state ensures !TurnedAway(intent, legs, limitPrice, p, state, st, id, strike) {
        if Finish(intent, legs, limitPrice, p, state, st, id, strike).Planned? {
          FinishFits(intent, legs, limitPrice, p, state, st, id, strike);
        }
      }
    }
  }

  /** The check the gate makes of a plan built for this account. */
  ghost predicate Accepted(outcome: Outcome, state: SizingState, st: Settings) {
    outcome.Planned? ==> CheckBuyingPower(outcome.plan, FromSettings(st), state.buyingPower).None?
  }

  /** The put an intent would have written is found and quoted on this chain. */
  predicate PutQuoted(intent: Intent, universe: seq<Contract>, st: Settings, m: Market)
    requires intent.strategy == CashSecuredPut
  {
    Written(intent, universe, st, m).Some? && Priced(Written(intent, universe, st, m).value.contract)
  }

  /** What a written put is sold for. */
  function PutSoldFor(c: Contract, st: Settings): real
    requires Priced(c)
  {
    EntryPrice(CashSecuredPut, c, None, st).value
  }

  /**
   * For one intent on one chain that can be built at all: whatever the account, the gate finds the
   * buying power of what is built, exactly when it is no covered call and no put whose quotes price
   * it below zero.
   */
  lemma BuilderNeverRefusedIff(intent: Intent, universe: seq<Contract>, planned: SizingState, holding: Option<Holding>,
                               st: Settings, id: nat, m: Market)
    requires st.Valid() && PlanFor(intent, universe, planned, holding, st, id, m).Planned?
    ensures intent.strategy == CashSecuredPut ==> PutQuoted(intent, universe, st, m)
    ensures (forall state :: Accepted(PlanFor(intent, universe, state, holding, st, id, m), state, st))
       <==> && intent.strategy != CoveredCall
            && (intent.strategy == CashSecuredPut ==>
                  PutSoldFor(Written(intent, universe, st, m).value.contract, st) >= 0.0)
  {
    hide FunnelPlan, StranglePlan, CreditPlan, CheckBuyingPower, Finish, PutQuoted, PutSoldFor, Written;
    if IsShortOnly(intent.strategy) {
      assert intent.(strategy := Canonical(intent.strategy)) == intent;
      ShortNeverRefusedIff(intent, universe, planned, holding, st, id, m);
      forall state
        ensures PlanFor(intent, universe, state, holding, st, id, m) == FunnelPlan(intent, universe, state, holding, st, id, m)
      {
      }
    } else {
      forall state ensures Accepted(PlanFor(intent, universe, state, holding, st, id, m), state, st) {
        if PlanFor(intent, universe, state, holding, st, id, m).Planned? {
          GateAcceptsBuilderPlans(intent, universe, state, holding, st, id, m);
          NamedAfterIntent(intent, universe, state, holding, st, id, m);
        }
      }
    }
  }

  lemma ShortNeverRefusedIff(intent: Intent, universe: seq<Contract>, planned: SizingState, holding: Option<Holding>,
                             st: Settings, id: nat, m: Market)
    requires st.Valid() && IsShortOnly(intent.strategy)
    requires FunnelPlan(intent, universe, planned, holding, st, id, m).Planned?
    ensures intent.strategy == CashSecuredPut ==> PutQuoted(intent, universe, st, m)
    ensures (forall state :: Accepted(FunnelPlan(intent, universe, state, holding, st, id, m), state, st))
       <==> intent.strategy != CoveredCall && PutSoldFor(Written(intent, universe, st, m).value.contract, st) >= 0.0
  {
    hide FunnelPlan, CheckBuyingPower, Written, EntryPrice, Finish;
    var legs, p := ShortPlan(intent, universe, planned, holding, st, id, m);
    var c := Written(intent, universe, st, m).value.contract;
    var entry := EntryPrice(intent.strategy, c, None, st).value;
    NeverRefusedIff(intent, legs, entry, p, st, id, Some(c.strike));
    forall state
      ensures Accepted(FunnelPlan(intent, universe, state, holding, st, id, m), state, st)
         <==> !TurnedAway(intent, legs, entry, p, state, st, id, Some(c.strike))
    {
    }
  }

  /** A plan carries the name of what was asked for. */
  lemma NamedAfterIntent(intent: Intent, universe: seq<Contract>, state: SizingState, holding: Option<Holding>,
                         st: Settings, id: nat, m: Market)
    requires st.Valid() && PlanFor(intent, universe, state, holding, st, id, m).Planned?
    ensures PlanFor(intent, universe, state, holding, st, id, m).plan.strategy == Canonical(intent.strategy)
  {
    hide FunnelPlan, StranglePlan, CreditPlan;
    var named := intent.(strategy := Canonical(intent.strategy));
    if named.strategy == LongStrangle {
      StrangleNamed(named, universe, state, st, id, m);
    } else if IsCredit(named.strategy) {
      CreditNamed(named, universe, state, st, id, m);
    } else {
      FunnelNamed(named, universe, state, holding, st, id, m);
    }
  }

  lemma StrangleNamed(intent: Intent, universe: seq<Contract>, state: SizingState, st: Settings, id: nat, m: Market)
    requires st.Valid() && intent.strategy == LongStrangle && StranglePlan(intent, universe, state, st, id, m).Planned?
    ensures StranglePlan(intent, universe, state, st, id, m).plan.strategy == intent.strategy
  {
    hide Size, Best, StrangleOffer, FirstRejection;
  }

  lemma CreditNamed(intent: Intent, universe: seq<Contract>, state: SizingState, st: Settings, id: nat, m: Market)
    requires st.Valid() && IsCredit(intent.strategy) && CreditPlan(intent, universe, state, st, id, m).Planned?
    ensures CreditPlan(intent, universe, state, st, id, m).plan.strategy == intent.strategy
  {
    hide Size, Best, CreditOffer, FirstRejection, WidestWing, Credit;
  }

  lemma FunnelNamed(intent: Intent, universe: seq<Contract>, state: SizingState, holding: Option<Holding>,
                    st: Settings, id: nat, m: Market)
    requires st.Valid() && IsFunnel(intent.strategy) && FunnelPlan(intent, universe, state, holding, st, id, m).Planned?
    ensures FunnelPlan(intent, universe, state, holding, st, id, m).plan.strategy == intent.strategy
  {
    hide FinishFunnel, Primary, Secondary, LiquidityRejection;
    forall primary, partner, legs | FunnelReady(intent, primary, partner)
      ensures var outcome := FinishFunnel(intent, primary, partner, legs, state, holding, st, id, m);
              outcome.Planned? ==> outcome.plan.strategy == intent.strategy
    {
      FunnelFinishNamed(intent, primary, partner, legs, state, holding, st, id, m);
    }
  }

  predicate FunnelReady(intent: Intent, primary: Contract, partner: Option<Contract>) {
    && Priced(primary) && primary.strike > 0.0 && (partner.Some? <==> IsVertical(intent.strategy))
    && (partner.Some? ==> Priced(partner.value) && partner.value.strike != primary.strike)
  }

  lemma FunnelFinishNamed(intent: Intent, primary: Contract, partner: Option<Contract>, legs: seq<Leg>,
                          state: SizingState,
                          holding: Option<Holding>, st: Settings, id: nat, m: Market)
    requires st.Valid() && IsFunnel(intent.strategy) && FunnelReady(intent, primary, partner)
    ensures var outcome := FinishFunnel(intent, primary, partner, legs, state, holding, st, id, m);
            outcome.Planned? ==> outcome.plan.strategy == intent.strategy
  {
    hide Size, RiskProfile, EntryPrice;
  }
}
