/** Which settings can price a written put below zero, and what that means for the gate. */
module PutPricing {
  import opened Models
  import opened Reals
  import opened Sizing
  import opened Selection
  import opened StrategyBuilder
  import opened PlanRisk
  import opened RiskGate
  import opened GateConditions
  import opened BuilderExamples

  /** The nudge stays within half the spread, or no spread is let through for being narrow in dollars alone. */
  predicate SellsAboveZero(st: Settings) { st.spreadNudgePct <= 0.5 || st.maxSpreadAbs == 0.0 }

  lemma LiquidPutSellsAboveZero(c: Contract, st: Settings)
    requires st.Valid() && SellsAboveZero(st) && LiquidityRejection(c, st).None?
    ensures PutSoldFor(c, st) >= 0.0
  {
    assert PutSoldFor(c, st) == Mid(c) - st.spreadNudgePct * Spread(c);
    if st.spreadNudgePct <= 0.5 {
      ModerateNudgeSellsAtTheBidOrBetter(c, st);
    } else {
      WholeSpreadStaysAboveZero(Mid(c), st.spreadNudgePct, Spread(c));
    }
  }

  lemma WholeSpreadStaysAboveZero(mid: real, nudge: real, spread: real)
    requires mid > 0.0 && 0.0 <= nudge <= 1.0 && (spread <= 0.0 || spread / mid <= 1.0)
    ensures mid - nudge * spread >= 0.0
  {
    if spread <= 0.0 {
      MulMonotone(0.0, nudge, -spread, -spread);
      assert nudge * -spread == -(nudge * spread);
    } else {
      AtMostTheMid(spread, mid);
      SignOfProduct(1.0 - nudge, spread);
      assert (1.0 - nudge) * spread == spread - nudge * spread;
    }
  }

  lemma AtMostTheMid(spread: real, mid: real)
    requires mid > 0.0 && spread / mid <= 1.0
    ensures spread <= mid
  {
    var ratio := spread / mid;
    assert ratio * mid == spread;
    SignOfProduct(1.0 - ratio, mid);
    assert (1.0 - ratio) * mid == mid - ratio * mid;
  }

  /** A put quoted so close to nothing that a large nudge on the widest spread let through takes it below zero. */
  function PennyPut(st: Settings): Contract {
    var bid := (st.spreadNudgePct - 0.5) * st.maxSpreadAbs / 2.0;
    Contract("X", 100.0, 10, Put, Some(st.minOpenInterest), Some(-0.5), None, Some(bid), Some(bid + st.maxSpreadAbs))
  }

  lemma PennyPutSellsBelowZero(st: Settings)
    requires st.Valid() && !SellsAboveZero(st)
    ensures LiquidityRejection(PennyPut(st), st).None? && LegFields(PennyPut(st), PennyPut(st).delta)
    ensures PutSoldFor(PennyPut(st), st) < 0.0
  {
    var c, over := PennyPut(st), st.spreadNudgePct - 0.5;
    MulPositive(over, st.maxSpreadAbs);
    assert Spread(c) == st.maxSpreadAbs;
    assert c.bid.value == over * st.maxSpreadAbs / 2.0;
    assert st.spreadNudgePct * st.maxSpreadAbs == over * st.maxSpreadAbs + 0.5 * st.maxSpreadAbs;
    assert PutSoldFor(c, st) == c.bid.value + 0.5 * st.maxSpreadAbs - st.spreadNudgePct * st.maxSpreadAbs;
  }

  /** Settings price every liquid put at or above zero exactly when they sell above zero. */
  lemma PutsSellAboveZeroIff(st: Settings)
    requires st.Valid()
    ensures (forall c | LiquidityRejection(c, st).None? :: PutSoldFor(c, st) >= 0.0) <==> SellsAboveZero(st)
  {
    hide LiquidityRejection, PutSoldFor, SellsAboveZero;
    if SellsAboveZero(st) {
      forall c | LiquidityRejection(c, st).None? ensures PutSoldFor(c, st) >= 0.0 { LiquidPutSellsAboveZero(c, st); }
    } else {
      PennyPutSellsBelowZero(st);
    }
  }

  /** What is written is liquid. */
  lemma WrittenIsLiquid(intent: Intent, universe: seq<Contract>, state: SizingState, holding: Option<Holding>,
                        st: Settings, id: nat, m: Market)
    requires st.Valid() && intent.strategy == CashSecuredPut
    requires PlanFor(intent, universe, state, holding, st, id, m).Planned?
    ensures PutQuoted(intent, universe, st, m)
    ensures LiquidityRejection(Written(intent, universe, st, m).value.contract, st).None?
  {
    hide FinishFunnel, Primary, InWindow, LegFields;
    assert intent.(strategy := Canonical(intent.strategy)) == intent;
  }

  lemma PennyPlan(st: Settings, state: SizingState)
    requires st.Valid() && !SellsAboveZero(st)
    ensures var c, entry := PennyPut(st), PutSoldFor(PennyPut(st), st);
            var p := Profile((c.strike - entry) * MULTIPLIER, Some(entry * MULTIPLIER), Some(c.strike - entry));
            PlanFor(Ask(CashSecuredPut), [c], state, None, st, 7, QuietMarket(100.0))
            == Finish(Ask(CashSecuredPut), [MakeLeg(c, Sell, c.delta)], entry, p, state, st, 7, Some(c.strike))
  {
    hide PlanFor, FunnelPlan, Finish, LiquidityRejection, SellsAboveZero;
    PennyPutSellsBelowZero(st);
    PlanFromOne(CashSecuredPut, PennyPut(st), state, None, st, QuietMarket(100.0));
  }

  /** Some account has the penny put planned and then refused. */
  lemma PennyPutIsRefused(st: Settings) returns (state: SizingState)
    requires st.Valid() && !SellsAboveZero(st)
    ensures !Accepted(PlanFor(Ask(CashSecuredPut), [PennyPut(st)], state, None, st, 7, QuietMarket(100.0)), state, st)
  {
    hide PlanFor, FunnelPlan, Finish, LiquidityRejection, SellsAboveZero, CheckBuyingPower, PutSoldFor;
    PennyPutSellsBelowZero(st);
    var c, entry := PennyPut(st), PutSoldFor(PennyPut(st), st);
    var legs := [MakeLeg(c, Sell, c.delta)];
    var p := Profile((c.strike - entry) * MULTIPLIER, Some(entry * MULTIPLIER), Some(c.strike - entry));
    state := PutOnOneStrike(Ask(CashSecuredPut), legs, entry, p, st, 7, c.strike);
    PennyPlan(st, state);
  }

  /**
   * Before anything is asked for: no intent, chain, holding or account ever has a cash-secured put
   * built and then refused for buying power, exactly when the settings sell above zero.
   */
  lemma NoPutRefusedIff(st: Settings)
    requires st.Valid()
    ensures (forall intent: Intent, universe, state, holding, id, m | intent.strategy == CashSecuredPut ::
               Accepted(PlanFor(intent, universe, state, holding, st, id, m), state, st))
       <==> SellsAboveZero(st)
  {
    hide *;
    if SellsAboveZero(st) {
      forall intent: Intent, universe, state, holding, id, m | intent.strategy == CashSecuredPut
        ensures Accepted(PlanFor(intent, universe, state, holding, st, id, m), state, st)
      {
        PutIsAccepted(intent, universe, state, holding, st, id, m);
      }
    } else {
      var state := PennyPutIsRefused(st);
      PennyAsked();
    }
  }

  lemma PennyAsked()
    ensures Ask(CashSecuredPut).strategy == CashSecuredPut
  {}

  lemma PutIsAccepted(intent: Intent, universe: seq<Contract>, state: SizingState, holding: Option<Holding>,
                      st: Settings, id: nat, m: Market)
    requires st.Valid() && intent.strategy == CashSecuredPut && SellsAboveZero(st)
    ensures Accepted(PlanFor(intent, universe, state, holding, st, id, m), state, st)
  {
    hide PlanFor, Written, LiquidityRejection, SellsAboveZero, CheckBuyingPower, PutSoldFor;
    if PlanFor(intent, universe, state, holding, st, id, m).Planned? {
      BuilderNeverRefusedIff(intent, universe, state, holding, st, id, m);
      WrittenIsLiquid(intent, universe, state, holding, st, id, m);
      LiquidPutSellsAboveZero(Written(intent, universe, st, m).value.contract, st);
    }
  }
}
