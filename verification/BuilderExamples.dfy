/** Concrete orders on which the builder and what it promises part ways. */
module BuilderExamples {
  import opened Models
  import opened Sizing
  import opened Selection
  import opened StrategyBuilder
  import opened PlanRisk
  import opened RiskGate

  /** Settings whose scalars are all one, so the risk budget is the whole equity. */
  function FlatSettings(nudge: real): Settings {
    Settings(nudge, false, 1.0, 0, 1.0, 10.0, 1.0, 1.0, 1.0, 0.5, 1.0, 1.0, 1.0, 1.0, 1.0, 1.0, 0.0, 2,
             1, 1.0, 0, 0.0, 0.0, 0.12, 0.7, 0.45, 1.0)
  }

  function FlatState(equity: real, buyingPower: real, cash: real): SizingState {
    SizingState(Some(equity), Some(buyingPower), Some(cash), None, None, None, None, false, 0.0)
  }

  function OneContract(t: OptionType, strike: real, bid: real, ask: real): Contract {
    Contract("X", strike, 10, t, Some(0), Some(0.5), None, Some(bid), Some(ask))
  }

  function QuietMarket(spot: real): Market {
    Market(spot, 0, (c: Contract) => None, (d: int) => 0.0, (d: int) => false)
  }

  function Ask(strategy: Strategy): Intent { Intent(strategy, "X", 0.5, None, 0, 20, 1.0) }

  lemma FlatBudget(nudge: real, equity: real, buyingPower: real, cash: real)
    requires equity > 0.0
    ensures HorizonScalar(FlatState(equity, buyingPower, cash), FlatSettings(nudge)) == 1.0
    ensures Budget(1.0, FlatState(equity, buyingPower, cash), FlatSettings(nudge)) == equity
  {
    var state, st := FlatState(equity, buyingPower, cash), FlatSettings(nudge);
    assert Scalars(1.0, state, st) == [1.0, 1.0, 1.0, 1.0];
    ProductOfFour(1.0, 1.0, 1.0, 1.0, 1.0);
  }

  lemma FloorIs(x: real, y: real, q: int)
    requires y > 0.0 && q as real * y <= x < (q + 1) as real * y
    ensures Affordable(x, y) == q
  {
    FloorDivision(q, x, y);
    FloorDivision(q + 1, x, y);
  }

  lemma FilterOne(c: Contract)
    ensures forall keep: Contract -> bool :: Filter([c], keep) == if keep(c) then [c] else []
  {
    assert [c][1..] == [];
  }

  lemma {:induction false} PickTheOnly(strategy: Strategy, c: Contract, st: Settings, m: Market)
    requires IsFunnel(strategy) && c.optionType == FunnelType(strategy)
    requires 0 <= c.expiry - m.today <= 20 && c.delta.Some?
    ensures InWindow(OfType([c], FunnelType(strategy)), Ask(strategy), m.today) == [c]
    ensures var pick := Primary([c], FunnelType(strategy), Ask(strategy), st, m);
            pick.Some? && pick.value.contract == c && pick.value.delta == c.delta.value
  {
    FilterOne(c);
    assert Eligible([c][0], FunnelType(strategy), m);
  }

  /** With one eligible, liquid, valid contract listed, the plan is whatever pricing and sizing make of it. */
  lemma PlanFromOne(strategy: Strategy, c: Contract, state: SizingState, holding: Option<Holding>, st: Settings,
                    m: Market)
    requires st.Valid() && IsShortOnly(strategy) && c.optionType == FunnelType(strategy)
    requires 0 <= c.expiry - m.today <= 20 && c.delta.Some?
    requires LiquidityRejection(c, st).None? && LegFields(c, c.delta)
    ensures PlanFor(Ask(strategy), [c], state, holding, st, 7, m)
         == FunnelPlan(Ask(strategy), [c], state, holding, st, 7, m)
         == FinishFunnel(Ask(strategy), c, None, [MakeLeg(c, Sell, c.delta)], state, holding, st, 7, m)
  {
    hide Primary, InWindow, OfType, FinishFunnel, LiquidityRejection;
    PickTheOnly(strategy, c, st, m);
  }

  lemma CoveredCallSize()
    ensures Size(CoveredCall, 1.0, 9900.0, FlatState(19800.0, 0.0, 0.0), FlatSettings(0.0), Some(110.0)).qty == 2
  {
    hide Affordable, Budget;
    FlatBudget(0.0, 19800.0, 0.0, 0.0);
    FloorIs(19800.0, 9900.0, 2);
    assert Caps(CoveredCall, 9900.0, 19800.0, 0.0, FlatState(19800.0, 0.0, 0.0), FlatSettings(0.0), Some(110.0))
        == [(RiskBudget, 2)];
  }

  const CALL: Contract := OneContract(Call, 110.0, 1.0, 1.0)

  const CALL_STATE: SizingState := FlatState(19800.0, 0.0, 0.0)

  const SHARES: Option<Holding> := Some(Holding(Some(100.0), false))

  lemma CoveredCallPriced()
    ensures var r := FinishFunnel(Ask(CoveredCall), CALL, None, [MakeLeg(CALL, Sell, CALL.delta)],
                                  CALL_STATE, SHARES, FlatSettings(0.0), 7, QuietMarket(100.0));
            r.Planned? && r.plan.qty == 2 && r.plan.maxLoss == 19800.0 && r.plan.strategy == CoveredCall
  {
    hide Size;
    CoveredCallSize();
    assert EntryPrice(CoveredCall, CALL, None, FlatSettings(0.0)) == Some(1.0);
    assert RiskProfile(CoveredCall, CALL, None, 1.0, 100.0, SHARES, FlatSettings(0.0)).p.maxLoss == 9900.0;
  }

  /** A covered call on 100 shares sized at two contracts, with no options buying power at all. */
  lemma CoveredCallOutrunsItsShares()
    ensures var r := PlanFor(Ask(CoveredCall), [CALL], CALL_STATE, SHARES, FlatSettings(0.0), 7, QuietMarket(100.0));
            && r.Planned? && r.plan.qty == 2 && r.plan.maxLoss == 19800.0
            && CheckBuyingPower(r.plan, FromSettings(FlatSettings(0.0)), Some(0.0)) == Some(InsufficientBuyingPower)
            && exists price :: price >= 0.0 && PnlWithShares(r.plan, 100.0, 100.0, price) < -r.plan.maxLoss
  {
    hide FinishFunnel, PlanFor, FunnelPlan;
    var st, m := FlatSettings(0.0), QuietMarket(100.0);
    PlanFromOne(CoveredCall, CALL, CALL_STATE, SHARES, st, m);
    CoveredCallPriced();
    CoveredCallBoundedIffCovered(Ask(CoveredCall), [CALL], CALL_STATE, SHARES, st, 7, m, 100.0);
  }

  lemma TightestIsOne()
    ensures Tightest([(RiskBudget, 10), (BuyingPower, 1), (Cash, 2)]).1 == 1
  {
    var caps := [(RiskBudget, 10), (BuyingPower, 1), (Cash, 2)];
    assert caps[1] in caps && Tightest(caps) in caps;
  }

  lemma NegativePremiumPutSize()
    ensures Size(CashSecuredPut, 1.0, 10300.0, FlatState(103000.0, 20000.0, 20000.0), FlatSettings(1.0), Some(100.0)).qty == 1
  {
    hide Affordable, Budget, Tightest;
    FlatBudget(1.0, 103000.0, 20000.0, 20000.0);
    FloorIs(103000.0, 10300.0, 10);
    FloorIs(10000.0, 10000.0, 1);
    FloorIs(20000.0, 10000.0, 2);
    assert Usable(20000.0, FlatSettings(1.0)) == 10000.0;
    assert Caps(CashSecuredPut, 10300.0, 103000.0, 10000.0, FlatState(103000.0, 20000.0, 20000.0), FlatSettings(1.0), Some(100.0))
        == [(RiskBudget, 10), (BuyingPower, 1), (Cash, 2)];
    TightestIsOne();
  }

  /** A put sold three dollars below zero: sized within the cash it posts, refused for the loss it claims. */
  lemma NegativePremiumPutIsRefused()
    ensures var r := PlanFor(Ask(CashSecuredPut), [OneContract(Put, 100.0, 1.0, 9.0)],
                             FlatState(103000.0, 20000.0, 20000.0), None, FlatSettings(1.0), 7, QuietMarket(100.0));
            && r.Planned? && r.plan.limitPrice == -3.0
            && CheckBuyingPower(r.plan, FromSettings(FlatSettings(1.0)), Some(20000.0)) == Some(InsufficientBuyingPower)
  {
    var c, st, m := OneContract(Put, 100.0, 1.0, 9.0), FlatSettings(1.0), QuietMarket(100.0);
    var state := FlatState(103000.0, 20000.0, 20000.0);
    PlanFromOne(CashSecuredPut, c, state, None, st, m);
    NegativePremiumPutSize();
    hide Size, PlanFor, FunnelPlan;
    assert EntryPrice(CashSecuredPut, c, None, st) == Some(-3.0);
    assert RiskProfile(CashSecuredPut, c, None, -3.0, 100.0, None, st).p.maxLoss == 10300.0;
  }
}
