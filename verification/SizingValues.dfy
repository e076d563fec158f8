/** What the four sizing scalars are worth, between and at the ends of their ranges, and the budget they make. */
module SizingValues {
  import opened Models
  import opened Reals
  import opened Sizing

  // ---- Drawdown -----------------------------------------------------------

  /** No taper at no loss, the floor from the halt on, and a straight line between. */
  lemma TaperIsStraight(loss: real, halt: real, floor: real)
    requires halt > 0.0 && 0.0 < floor <= 1.0
    ensures loss <= 0.0 ==> Taper(loss, halt, floor) == 1.0
    ensures 0.0 <= loss <= halt ==> (1.0 - Taper(loss, halt, floor)) * halt == loss * (1.0 - floor)
    ensures loss >= halt ==> Taper(loss, halt, floor) == floor
    ensures floor < 1.0 ==> (Taper(loss, halt, floor) == 1.0 <==> loss <= 0.0)
  {
    if loss > 0.0 {
      var ratio := loss / halt;
      assert ratio * halt == loss;
      if ratio >= 1.0 {
        SignOfProduct(ratio - 1.0, halt);
        assert (ratio - 1.0) * halt == loss - halt;
      } else {
        RampIsStraight(ratio, halt, floor);
        SignOfProduct(1.0 - ratio, halt);
        assert (1.0 - ratio) * halt == halt - loss;
      }
    }
  }

  lemma RampIsStraight(ratio: real, halt: real, floor: real)
    requires 0.0 < ratio < 1.0 && halt > 0.0 && 0.0 < floor <= 1.0
    ensures (1.0 - Ramp(ratio, floor)) * halt == ratio * halt * (1.0 - floor)
    ensures floor < 1.0 ==> Ramp(ratio, floor) < 1.0
  {
    var drop := ratio * (1.0 - floor);
    MulMonotone(ratio, 1.0, 1.0 - floor, 1.0 - floor);
    assert Ramp(ratio, floor) == 1.0 - drop;
    Regroup(ratio, 1.0 - floor, halt);
    if floor < 1.0 { MulPositive(ratio, 1.0 - floor); }
  }

  /** How much of a known, positive baseline is gone. */
  function LostOf(baseline: real, equity: real): real
    requires baseline > 0.0
  {
    (baseline - equity) / baseline
  }

  predicate KnownPositive(x: Option<real>) { x.Some? && x.value > 0.0 }

  /** The worse of the two drawdowns binds: below both tapers, and one of them unless it is one. */
  lemma WorseDrawdownBinds(state: SizingState, st: Settings)
    requires KnownPositive(state.equity)
    ensures var s, e, floor := DrawdownScalar(state, st), state.equity.value, st.drawdownSizeFloor;
            var peak, start := state.highWaterMark, state.startOfDayEquity;
            && s <= 1.0
            && (KnownPositive(peak) ==> s <= Taper(LostOf(peak.value, e), st.drawdownHaltPct, floor))
            && (KnownPositive(start) ==> s <= Taper(LostOf(start.value, e), st.dailyLossHaltPct, floor))
            && (|| s == 1.0
                || (KnownPositive(peak) && s == Taper(LostOf(peak.value, e), st.drawdownHaltPct, floor))
                || (KnownPositive(start) && s == Taper(LostOf(start.value, e), st.dailyLossHaltPct, floor)))
  {
    hide Taper;
  }

  /** Without an equity to measure there is no drawdown. */
  lemma UnknownEquityIsNeutral(state: SizingState, st: Settings)
    requires st.Valid() && !KnownPositive(state.equity)
    ensures DrawdownScalar(state, st) == 1.0
  {}

  // ---- Gain ---------------------------------------------------------------

  /** The equity gains are measured from: the campaign's first, or the previous close without one. */
  function Opening(state: SizingState): Option<real> {
    if state.campaignStartEquity.Some? then state.campaignStartEquity else state.startOfDayEquity
  }

  /** One without a gain, the cap from the reference gain on, and a straight line between. */
  lemma GainIsStraight(state: SizingState, st: Settings)
    requires st.Valid() && state.equity.Some? && KnownPositive(Opening(state))
    ensures var s, ref, cap := GainScalar(state, st), st.gainSizeReferencePct, st.gainSizeCap;
            var gain := (state.equity.value - Opening(state).value) / Opening(state).value;
            && (gain <= 0.0 ==> s == 1.0)
            && (0.0 <= gain <= ref ==> (s - 1.0) * ref == gain * (cap - 1.0))
            && (gain >= ref ==> s == cap)
  {
    var ref, cap := st.gainSizeReferencePct, st.gainSizeCap;
    var gain := (state.equity.value - Opening(state).value) / Opening(state).value;
    if gain > 0.0 {
      var ratio := gain / ref;
      assert ratio * ref == gain;
      SignOfProduct(ratio - 1.0, ref);
      SignOfProduct(1.0 - ratio, ref);
      assert (ratio - 1.0) * ref == gain - ref && (1.0 - ratio) * ref == ref - gain;
      if ratio <= 1.0 { Regroup(ratio, cap - 1.0, ref); }
    }
  }

  lemma Regroup(a: real, b: real, c: real)
    ensures (a * b) * c == (a * c) * b
  {}

  lemma NoOpeningIsNeutral(state: SizingState, st: Settings)
    requires st.Valid() && (state.equity.None? || !KnownPositive(Opening(state)))
    ensures GainScalar(state, st) == 1.0
  {}

  // ---- Conviction ---------------------------------------------------------

  /**
   * At full reliability the smallest multiplier at the conviction floor and below, the largest at
   * full conviction and above, and a straight line between.
   */
  lemma ConvictionIsStraight(conviction: real, st: Settings)
    requires st.Valid() && st.convictionFloor < 1.0
    ensures var s := ConvictionScalar(conviction, st, 1.0);
            var low, high := st.convictionMinMult, st.convictionMaxMult;
            && (conviction <= st.convictionFloor ==> s == low)
            && (conviction >= 1.0 ==> s == high)
            && (st.convictionFloor <= conviction <= 1.0 ==>
                  (s - low) * (1.0 - st.convictionFloor) == (conviction - st.convictionFloor) * (high - low))
  {
    var low, high, span := st.convictionMinMult, st.convictionMaxMult, 1.0 - st.convictionFloor;
    var over := conviction - st.convictionFloor;
    var reached := over / span;
    assert reached * span == over;
    SignOfProduct(reached, span);
    SignOfProduct(-reached, span);
    SignOfProduct(reached - 1.0, span);
    SignOfProduct(1.0 - reached, span);
    assert (reached - 1.0) * span == over - span && (1.0 - reached) * span == span - over && -reached * span == -over;
    var t := Min(1.0, Max(0.0, reached));
    assert ConvictionScalar(conviction, st, 1.0) == low + t * (high - low);
    if 0.0 <= over <= span {
      assert t == reached;
      Regroup(reached, high - low, span);
    }
  }

  /** With the floor at one there is no band: full size. */
  lemma ConvictionWithoutBand(conviction: real, st: Settings)
    requires st.Valid() && st.convictionFloor == 1.0
    ensures ConvictionScalar(conviction, st, 1.0) == st.convictionMaxMult
  {}

  /** Reliability shrinks the scalar towards one: none at all at zero, in full at one, in proportion between. */
  lemma ReliabilityShrinks(conviction: real, st: Settings, reliability: real)
    ensures reliability <= 0.0 ==> ConvictionScalar(conviction, st, reliability) == 1.0
    ensures reliability >= 1.0 ==> ConvictionScalar(conviction, st, reliability) == ConvictionScalar(conviction, st, 1.0)
    ensures 0.0 <= reliability <= 1.0 ==>
              ConvictionScalar(conviction, st, reliability) - 1.0
              == reliability * (ConvictionScalar(conviction, st, 1.0) - 1.0)
  {}

  // ---- Horizon and budget -------------------------------------------------

  /** Nothing once too few sessions remain, front-loaded on the first session, and neutral otherwise. */
  lemma HorizonIs(state: SizingState, st: Settings)
    requires st.Valid()
    ensures HorizonScalar(state, st) == 0.0
       <==> state.sessionsRemaining.Some? && state.sessionsRemaining.value <= st.minSessionsToHold
    ensures HorizonScalar(state, st) > 0.0 ==>
              HorizonScalar(state, st)
              == if state.sessionsRemaining.Some? && state.isFirstSession then st.frontLoadMult else 1.0
  {}

  /** The budget: the base fraction times the four scalars, under the per-trade ceiling, of the equity. */
  lemma BudgetIs(conviction: real, state: SizingState, st: Settings)
    requires st.Valid() && state.equity.Some?
    ensures Budget(conviction, state, st)
         == Min(st.baseRiskPctPerTrade * DrawdownScalar(state, st) * GainScalar(state, st)
                * ConvictionScalar(conviction, st, state.reliability) * HorizonScalar(state, st),
                st.maxPremiumPctPerTrade) * state.equity.value
  {
    hide Product, DrawdownScalar, GainScalar, ConvictionScalar, HorizonScalar;
    ProductOfFour(st.baseRiskPctPerTrade, DrawdownScalar(state, st), GainScalar(state, st),
                  ConvictionScalar(conviction, st, state.reliability), HorizonScalar(state, st));
  }

  // ---- What blocks --------------------------------------------------------

  /**
   * A sized trade is blocked exactly when it comes to nothing, and the cap named is one that leaves
   * nothing and is smallest.
   */
  lemma NothingIsBlocked(strategy: Strategy, conviction: real, maxLossPerContract: real, state: SizingState,
                         st: Settings, strike: Option<real>)
    requires st.Valid() && (strike.Some? ==> strike.value > 0.0)
    ensures var d := Size(strategy, conviction, maxLossPerContract, state, st, strike);
            && (d.blocked.None? <==> d.qty > 0)
            && (Sized(d) ==> d.riskBudget == Budget(conviction, state, st))
            && (!Sized(d) ==> d.riskBudget == 0.0 && d.caps == [])
            && (d.blocked.Some? && Sized(d) ==>
                  exists k :: (d.blocked.value.binding, k) in d.caps && k <= 0 && forall c :: c in d.caps ==> k <= c.1)
  {
    var d := Size(strategy, conviction, maxLossPerContract, state, st, strike);
    if d.blocked.Some? && Sized(d) {
      hide Caps, Budget, Collateral;
      var (cap, k) := Tightest(d.caps);
      assert d.blocked.value.binding == cap && (cap, k) in d.caps;
    }
  }

  /** A refusal for something unknown or closed is true of the account. */
  lemma BlockIsTrue(strategy: Strategy, conviction: real, maxLossPerContract: real, state: SizingState,
                    st: Settings, strike: Option<real>)
    requires st.Valid() && (strike.Some? ==> strike.value > 0.0)
    ensures match Size(strategy, conviction, maxLossPerContract, state, st, strike).blocked
            case None => true
            case Some(CampaignHorizonClosed) =>
              state.sessionsRemaining.Some? && state.sessionsRemaining.value <= st.minSessionsToHold
            case Some(NoAccountEquity) => state.equity.None? || state.equity.value <= 0.0
            case Some(NonPositiveMaxLoss) => maxLossPerContract <= 0.0
            case Some(UnknownCollateral) => strategy == CashSecuredPut && strike.None?
            case Some(UnknownBuyingPower) => strategy != CoveredCall && state.buyingPower.None?
            case Some(UnknownCash) => strategy == CashSecuredPut && state.cash.None?
            case Some(ZeroQuantity(_)) => true
  {
    hide Caps, Budget;
  }

  // ---- A worked trade -----------------------------------------------------

  /**
   * Half of an eight percent halt lost with a floor of 0.35: two thirds of the base risk, nine contracts
   * for fourteen.
   */
  lemma HalfwayToTheHalt(st: Settings, state: SizingState)
    requires st.Valid() && st.drawdownHaltPct == 0.08 && st.drawdownSizeFloor == 0.35
    requires st.baseRiskPctPerTrade == 0.015 && st.maxPremiumPctPerTrade >= 0.015
    requires state == SizingState(Some(96000.0), Some(1000000.0), None, None, Some(100000.0), None, None, false, 0.0)
    requires st.buyingPowerCap == 1.0
    ensures DrawdownScalar(state, st) == 0.675 && Budget(1.0, state, st) == 972.0
    ensures Size(LongCall, 1.0, 100.0, state, st, None).qty == 9
  {
    TaperIsStraight(0.04, 0.08, 0.35);
    assert DrawdownScalar(state, st) == Taper(0.04, 0.08, 0.35);
    assert GainScalar(state, st) == 1.0 && HorizonScalar(state, st) == 1.0;
    hide DrawdownScalar, Taper, GainScalar, HorizonScalar;
    ReliabilityShrinks(1.0, st, 0.0);
    BudgetIs(1.0, state, st);
    hide Budget, ConvictionScalar, Size;
    SizedExactlyWhenKnown(LongCall, 1.0, 100.0, state, st, None);
    SizeIsGreatestFit(LongCall, 1.0, 100.0, state, st, None, 9);
    SizeIsGreatestFit(LongCall, 1.0, 100.0, state, st, None, 10);
  }
}
