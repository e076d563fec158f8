/** Position sizing: the contract count as a function of per-contract risk and account state. */
module Sizing {
  import opened Models
  import opened Reals

  /** `None` in a field means the broker or the history could not supply it. */
  datatype SizingState = SizingState(
    equity: Option<real>, buyingPower: Option<real>, cash: Option<real>,
    startOfDayEquity: Option<real>, highWaterMark: Option<real>, campaignStartEquity: Option<real>,
    sessionsRemaining: Option<nat>, isFirstSession: bool, reliability: real)

  datatype Cap = RiskBudget | BuyingPower | Cash

  datatype Block =
    | CampaignHorizonClosed | NoAccountEquity | NonPositiveMaxLoss
    | UnknownCollateral | UnknownBuyingPower | UnknownCash
    | ZeroQuantity(binding: Cap)

  datatype Decision = Decision(qty: nat, riskBudget: real, caps: seq<(Cap, int)>, blocked: Option<Block>)

  // ---- The four scalars -------------------------------------------------

  /** From 1.0 down to `floor` as `ratio` goes from 0 to 1, and the floor beyond. */
  function Ramp(ratio: real, floor: real): real {
    Max(floor, 1.0 - Min(1.0, ratio) * (1.0 - floor))
  }

  /** From 1.0 up to `cap` as `ratio` goes from 0 to 1, and the cap beyond. */
  function Climb(ratio: real, cap: real): real {
    1.0 + Min(1.0, ratio) * (cap - 1.0)
  }

  function Taper(loss: real, halt: real, floor: real): real {
    if loss <= 0.0 then 1.0
    else if halt <= 0.0 then floor
    else Ramp(loss / halt, floor)
  }

  /** The taper of one drawdown, neutral when its baseline is unknown or not positive. */
  function TaperFrom(baseline: Option<real>, equity: real, halt: real, floor: real): real {
    if baseline.Some? && baseline.value > 0.0
    then Taper((baseline.value - equity) / baseline.value, halt, floor)
    else 1.0
  }

  function DrawdownScalar(state: SizingState, settings: Settings): real {
    if state.equity.None? || state.equity.value <= 0.0 then 1.0
    else
      var e := state.equity.value;
      Min(Min(1.0, TaperFrom(state.highWaterMark, e, settings.drawdownHaltPct, settings.drawdownSizeFloor)),
          TaperFrom(state.startOfDayEquity, e, settings.dailyLossHaltPct, settings.drawdownSizeFloor))
  }

  function GainScalar(state: SizingState, settings: Settings): real
    requires settings.gainSizeReferencePct > 0.0
  {
    var base := if state.campaignStartEquity.Some? then state.campaignStartEquity else state.startOfDayEquity;
    if state.equity.None? || base.None? || base.value <= 0.0 then 1.0
    else
      var gain := (state.equity.value - base.value) / base.value;
      if gain <= 0.0 then 1.0 else Climb(gain / settings.gainSizeReferencePct, settings.gainSizeCap)
  }

  function ConvictionScalar(conviction: real, settings: Settings, reliability: real): real {
    var low, high := settings.convictionMinMult, settings.convictionMaxMult;
    var span := 1.0 - settings.convictionFloor;
    var raw :=
      if span <= 0.0 then high
      else low + Min(1.0, Max(0.0, (conviction - settings.convictionFloor) / span)) * (high - low);
    1.0 + Min(1.0, Max(0.0, reliability)) * (raw - 1.0)
  }

  function HorizonScalar(state: SizingState, settings: Settings): real {
    if state.sessionsRemaining.None? then 1.0
    else if state.sessionsRemaining.value <= settings.minSessionsToHold then 0.0
    else if state.isFirstSession then settings.frontLoadMult
    else 1.0
  }

  // ---- The count --------------------------------------------------------

  /** Buying power one contract ties up; `None` when it cannot be computed. */
  function Collateral(strategy: Strategy, maxLossPerContract: real, strike: Option<real>): Option<real> {
    if strategy == CoveredCall then Some(0.0)
    else if strategy == CashSecuredPut then
      if strike.None? then None else Some(strike.value * MULTIPLIER)
    else if maxLossPerContract > 0.0 then Some(maxLossPerContract) else None
  }

  function Scalars(conviction: real, state: SizingState, settings: Settings): (r: seq<real>)
    requires settings.gainSizeReferencePct > 0.0
    ensures |r| == 4
  {
    [DrawdownScalar(state, settings), GainScalar(state, settings),
     ConvictionScalar(conviction, settings, state.reliability), HorizonScalar(state, settings)]
  }

  function Product(base: real, factors: seq<real>): real {
    if factors == [] then base else Product(base, factors[..|factors| - 1]) * factors[|factors| - 1]
  }

  function RiskFraction(conviction: real, state: SizingState, settings: Settings): real
    requires settings.gainSizeReferencePct > 0.0
  {
    Min(Product(settings.baseRiskPctPerTrade, Scalars(conviction, state, settings)), settings.maxPremiumPctPerTrade)
  }

  /** Dollars one trade may put at risk. */
  function Budget(conviction: real, state: SizingState, settings: Settings): real
    requires settings.gainSizeReferencePct > 0.0 && state.equity.Some?
  {
    RiskFraction(conviction, state, settings) * state.equity.value
  }

  /** The first entry carrying the smallest count. */
  function Tightest(caps: seq<(Cap, int)>): (r: (Cap, int))
    requires caps != []
    ensures r in caps && forall c :: c in caps ==> r.1 <= c.1
  {
    if |caps| == 1 then caps[0]
    else
      var best := Tightest(caps[..|caps| - 1]);
      if caps[|caps| - 1].1 < best.1 then caps[|caps| - 1] else best
  }

  function Blocked(reason: Block): Decision { Decision(0, 0.0, [], Some(reason)) }

  function Settle(budget: real, caps: seq<(Cap, int)>): Decision
    requires caps != []
  {
    var binding := Tightest(caps);
    var qty := if binding.1 < 0 then 0 else binding.1;
    Decision(qty, budget, caps, if qty > 0 then None else Some(ZeroQuantity(binding.0)))
  }

  /** How many contracts costing `each` the `available` dollars carry. */
  function Affordable(available: real, each: real): int
    requires each != 0.0
  {
    (available / each).Floor
  }

  function Usable(buyingPower: real, settings: Settings): real { Max(0.0, buyingPower) * settings.buyingPowerCap }

  function Caps(strategy: Strategy, maxLossPerContract: real, budget: real, collateral: real,
                state: SizingState, settings: Settings, strike: Option<real>): (r: seq<(Cap, int)>)
    requires maxLossPerContract > 0.0
    requires collateral > 0.0 ==> state.buyingPower.Some?
    requires strategy == CashSecuredPut ==> state.cash.Some? && strike.Some? && strike.value > 0.0
    ensures r != []
  {
    [(RiskBudget, Affordable(budget, maxLossPerContract))]
    + (if collateral > 0.0
       then [(BuyingPower, Affordable(Usable(state.buyingPower.value, settings), collateral))] else [])
    + (if strategy == CashSecuredPut
       then [(Cash, Affordable(Max(0.0, state.cash.value), strike.value * MULTIPLIER))] else [])
  }

  /** Strikes reaching sizing come off a validated leg, so they are positive. */
  function Size(strategy: Strategy, conviction: real, maxLossPerContract: real, state: SizingState,
                settings: Settings, strike: Option<real>): Decision
    requires settings.Valid()
    requires strike.Some? ==> strike.value > 0.0
  {
    if HorizonScalar(state, settings) <= 0.0 then Blocked(CampaignHorizonClosed)
    else if state.equity.None? || state.equity.value <= 0.0 then Blocked(NoAccountEquity)
    else if maxLossPerContract <= 0.0 then Blocked(NonPositiveMaxLoss)
    else
      var budget := Budget(conviction, state, settings);
      var collateral := Collateral(strategy, maxLossPerContract, strike);
      if collateral.None? then Blocked(UnknownCollateral)
      else if collateral.value > 0.0 && state.buyingPower.None? then Blocked(UnknownBuyingPower)
      else if strategy == CashSecuredPut && state.cash.None? then Blocked(UnknownCash)
      else Settle(budget, Caps(strategy, maxLossPerContract, budget, collateral.value, state, settings, strike))
  }

  /** The sizing routine with its loops: one over the scalars, one over the caps. */
  method SizePosition(strategy: Strategy, conviction: real, maxLossPerContract: real, state: SizingState,
                      settings: Settings, strike: Option<real>) returns (d: Decision)
    requires settings.Valid()
    requires strike.Some? ==> strike.value > 0.0
    ensures d == Size(strategy, conviction, maxLossPerContract, state, settings, strike)
  {
    hide DrawdownScalar, GainScalar, ConvictionScalar, Affordable, Usable;
    var scalars := Scalars(conviction, state, settings);
    if scalars[3] <= 0.0 { return Blocked(CampaignHorizonClosed); }
    if state.equity.None? || state.equity.value <= 0.0 { return Blocked(NoAccountEquity); }
    if maxLossPerContract <= 0.0 { return Blocked(NonPositiveMaxLoss); }

    var fraction := settings.baseRiskPctPerTrade;
    for i := 0 to |scalars|
      invariant fraction == Product(settings.baseRiskPctPerTrade, scalars[..i])
    {
      fraction := fraction * scalars[i];
      assert scalars[..i + 1][..i] == scalars[..i];
    }
    assert scalars[..|scalars|] == scalars;
    fraction := Min(fraction, settings.maxPremiumPctPerTrade);
    var budget := fraction * state.equity.value;
    assert budget == Budget(conviction, state, settings);
    assert scalars[3] == HorizonScalar(state, settings);
    hide Scalars, Budget;
    var caps := [(RiskBudget, Affordable(budget, maxLossPerContract))];

    var collateral := Collateral(strategy, maxLossPerContract, strike);
    if collateral.None? { return Blocked(UnknownCollateral); }
    if collateral.value > 0.0 {
      if state.buyingPower.None? { return Blocked(UnknownBuyingPower); }
      caps := caps + [(BuyingPower, Affordable(Usable(state.buyingPower.value, settings), collateral.value))];
    }
    if strategy == CashSecuredPut {
      if state.cash.None? { return Blocked(UnknownCash); }
      caps := caps + [(Cash, Affordable(Max(0.0, state.cash.value), strike.value * MULTIPLIER))];
    }

    assert caps == Caps(strategy, maxLossPerContract, budget, collateral.value, state, settings, strike);
    d := Settle(budget, caps);
  }

  // ---- What the count means ---------------------------------------------

  /** Dollars `k` contracts costing `each` take. */
  function Cost(k: int, each: real): real { k as real * each }

  /** `k` contracts fit the risk budget, the usable buying power and the cash, all at once. */
  predicate Fits(k: nat, strategy: Strategy, conviction: real, maxLossPerContract: real, state: SizingState,
                 settings: Settings, strike: Option<real>)
    requires settings.gainSizeReferencePct > 0.0
  {
    && state.equity.Some?
    && Cost(k, maxLossPerContract) <= Budget(conviction, state, settings)
    && (strategy != CoveredCall ==>
          var each := Collateral(strategy, maxLossPerContract, strike);
          each.Some? && state.buyingPower.Some?
          && Cost(k, each.value) <= Usable(state.buyingPower.value, settings))
    && (strategy == CashSecuredPut ==>
          state.cash.Some? && strike.Some?
          && Cost(k, strike.value * MULTIPLIER) <= Max(0.0, state.cash.value))
  }

  /** The sizing routine found a number: nothing it needed was unknown. */
  predicate Sized(d: Decision) { d.blocked.None? || d.blocked.value.ZeroQuantity? }

  lemma FloorDivision(k: int, x: real, y: real)
    requires y > 0.0
    ensures k <= Affordable(x, y) <==> Cost(k, y) <= x
  {
    var q := x / y;
    assert q * y == x;
    SignOfProduct(q - k as real, y);
    assert (q - k as real) * y == x - k as real * y;
  }

  lemma {:induction false} ProductOfFour(base: real, d: real, g: real, c: real, h: real)
    ensures Product(base, [d, g, c, h]) == base * d * g * c * h
  {
    var s := [d, g, c, h];
    var s3, s2, s1 := s[..3], s[..2], s[..1];
    assert s3[..2] == s2 && s2[..1] == s1 && s1[..0] == [];
    assert Product(base, s1) == Product(base, []) * s[0];
    assert Product(base, s2) == Product(base, s1) * s[1];
    assert Product(base, s3) == Product(base, s2) * s[2];
  }

  lemma ConvictionScalarPositive(conviction: real, settings: Settings, reliability: real)
    requires settings.Valid()
    ensures ConvictionScalar(conviction, settings, reliability) > 0.0
  {
    var low, high := settings.convictionMinMult, settings.convictionMaxMult;
    var span := 1.0 - settings.convictionFloor;
    var raw := high;
    if span > 0.0 {
      var t := Min(1.0, Max(0.0, (conviction - settings.convictionFloor) / span));
      raw := low + t * (high - low);
      Interpolation(low, high, t);
    }
    Interpolation(1.0, raw, Min(1.0, Max(0.0, reliability)));
  }

  lemma RampAntitone(r1: real, r2: real, floor: real)
    requires 0.0 <= r1 <= r2 && 0.0 < floor <= 1.0
    ensures floor <= Ramp(r2, floor) <= Ramp(r1, floor) <= 1.0
  {
    MulMonotone(Min(1.0, r1), Min(1.0, r2), 1.0 - floor, 1.0 - floor);
  }

  lemma ClimbMonotone(r1: real, r2: real, cap: real)
    requires 0.0 <= r1 <= r2 && 1.0 <= cap
    ensures 1.0 <= Climb(r1, cap) <= Climb(r2, cap) <= cap
  {
    MulMonotone(Min(1.0, r1), Min(1.0, r2), cap - 1.0, cap - 1.0);
    MulMonotone(Min(1.0, r2), 1.0, cap - 1.0, cap - 1.0);
  }

  /** A bigger loss never tapers less, and the taper stays between the floor and one. */
  lemma TaperAntitone(l1: real, l2: real, halt: real, floor: real)
    requires l1 <= l2 && halt > 0.0 && 0.0 < floor <= 1.0
    ensures floor <= Taper(l2, halt, floor) <= Taper(l1, halt, floor) <= 1.0
  {
    hide Ramp;
    if l2 > 0.0 {
      DivMonotone(0.0, l2, halt);
      RampAntitone(l2 / halt, l2 / halt, floor);
      if l1 > 0.0 {
        DivMonotone(0.0, l1, halt);
        DivMonotone(l1, l2, halt);
        RampAntitone(l1 / halt, l2 / halt, floor);
      }
    }
  }

  lemma TaperFromMonotone(baseline: Option<real>, e1: real, e2: real, halt: real, floor: real)
    requires e1 <= e2 && halt > 0.0 && 0.0 < floor <= 1.0
    ensures floor <= TaperFrom(baseline, e1, halt, floor) <= TaperFrom(baseline, e2, halt, floor) <= 1.0
  {
    hide Taper;
    if baseline.Some? && baseline.value > 0.0 {
      var b := baseline.value;
      DivMonotone(b - e2, b - e1, b);
      TaperAntitone((b - e2) / b, (b - e1) / b, halt, floor);
    }
  }

  lemma DrawdownFollowsEquity(state: SizingState, settings: Settings, e1: real, e2: real)
    requires settings.Valid() && 0.0 < e1 <= e2
    ensures 0.0 < DrawdownScalar(state.(equity := Some(e1)), settings)
               <= DrawdownScalar(state.(equity := Some(e2)), settings) <= 1.0
  {
    hide TaperFrom;
    TaperFromMonotone(state.highWaterMark, e1, e2, settings.drawdownHaltPct, settings.drawdownSizeFloor);
    TaperFromMonotone(state.startOfDayEquity, e1, e2, settings.dailyLossHaltPct, settings.drawdownSizeFloor);
  }

  lemma GainFollowsEquity(state: SizingState, settings: Settings, e1: real, e2: real)
    requires settings.Valid() && e1 <= e2
    ensures 1.0 <= GainScalar(state.(equity := Some(e1)), settings)
                <= GainScalar(state.(equity := Some(e2)), settings) <= settings.gainSizeCap
  {
    hide Climb;
    var ref, cap := settings.gainSizeReferencePct, settings.gainSizeCap;
    var base := if state.campaignStartEquity.Some? then state.campaignStartEquity else state.startOfDayEquity;
    if base.Some? && base.value > 0.0 {
      var g1, g2 := (e1 - base.value) / base.value, (e2 - base.value) / base.value;
      DivMonotone(e1 - base.value, e2 - base.value, base.value);
      if g2 > 0.0 {
        DivMonotone(0.0, g2, ref);
        ClimbMonotone(g2 / ref, g2 / ref, cap);
        if g1 > 0.0 {
          DivMonotone(0.0, g1, ref);
          DivMonotone(g1, g2, ref);
          ClimbMonotone(g1 / ref, g2 / ref, cap);
        }
      }
    }
  }

  lemma ProductMonotone(b: real, d1: real, d2: real, g1: real, g2: real, c: real, h: real)
    requires 0.0 < b && 0.0 < d1 <= d2 && 0.0 < g1 <= g2 && 0.0 < c && 0.0 < h
    ensures 0.0 < b * d1 * g1 * c * h <= b * d2 * g2 * c * h
  {
    MulPositive(b, d1);
    MulPositive(b * d1, g1);
    MulPositive(b * d1 * g1, c);
    MulPositive(b * d1 * g1 * c, h);
    MulMonotone(b, b, d1, d2);
    MulMonotone(b * d1, b * d2, g1, g2);
    MulMonotone(b * d1 * g1, b * d2 * g2, c, c);
    MulMonotone(b * d1 * g1 * c, b * d2 * g2 * c, h, h);
  }

  /** The dollars put at risk never rise when equity falls, and never pass the per-trade ceiling. */
  lemma BudgetFollowsEquity(conviction: real, state: SizingState, settings: Settings, e1: real, e2: real)
    requires settings.Valid() && 0.0 < e1 <= e2
    requires HorizonScalar(state, settings) > 0.0
    ensures 0.0 < Budget(conviction, state.(equity := Some(e1)), settings)
               <= Budget(conviction, state.(equity := Some(e2)), settings)
    ensures Budget(conviction, state.(equity := Some(e1)), settings) <= settings.maxPremiumPctPerTrade * e1
  {
    hide DrawdownScalar, GainScalar, ConvictionScalar, Product;
    var s1, s2 := state.(equity := Some(e1)), state.(equity := Some(e2));
    DrawdownFollowsEquity(state, settings, e1, e2);
    GainFollowsEquity(state, settings, e1, e2);
    ConvictionScalarPositive(conviction, settings, state.reliability);
    var c, h := ConvictionScalar(conviction, settings, state.reliability), HorizonScalar(state, settings);
    FractionMonotone(settings.baseRiskPctPerTrade, settings.maxPremiumPctPerTrade,
                     DrawdownScalar(s1, settings), DrawdownScalar(s2, settings),
                     GainScalar(s1, settings), GainScalar(s2, settings), c, h);
    var r1, r2 := RiskFraction(conviction, s1, settings), RiskFraction(conviction, s2, settings);
    assert 0.0 < r1 <= r2;
    MulPositive(r1, e1);
    MulMonotone(r1, r2, e1, e2);
    MulMonotone(r1, settings.maxPremiumPctPerTrade, e1, e1);
  }

  lemma {:induction false} FractionMonotone(b: real, ceiling: real, d1: real, d2: real, g1: real, g2: real, c: real,
                                        h: real)
    requires 0.0 < b && 0.0 < ceiling && 0.0 < d1 <= d2 && 0.0 < g1 <= g2 && 0.0 < c && 0.0 < h
    ensures 0.0 < Min(Product(b, [d1, g1, c, h]), ceiling) <= Min(Product(b, [d2, g2, c, h]), ceiling)
  {
    hide Product;
    ProductOfFour(b, d1, g1, c, h);
    ProductOfFour(b, d2, g2, c, h);
    ProductMonotone(b, d1, d2, g1, g2, c, h);
  }

  /** A trade that was sized is settled by its tightest cap. */
  lemma SizeSettles(strategy: Strategy, conviction: real, maxLossPerContract: real, state: SizingState,
                    settings: Settings, strike: Option<real>)
    requires settings.Valid()
    requires strike.Some? ==> strike.value > 0.0
    requires Sized(Size(strategy, conviction, maxLossPerContract, state, settings, strike))
    ensures HorizonScalar(state, settings) > 0.0
    ensures state.equity.Some? && state.equity.value > 0.0 && maxLossPerContract > 0.0
    ensures var each := Collateral(strategy, maxLossPerContract, strike);
            && each.Some?
            && (each.value > 0.0 ==> state.buyingPower.Some?)
            && (strategy == CashSecuredPut ==> state.cash.Some? && strike.Some?)
            && Size(strategy, conviction, maxLossPerContract, state, settings, strike)
               == var budget := Budget(conviction, state, settings);
                  Settle(budget, Caps(strategy, maxLossPerContract, budget, each.value, state, settings, strike))
  {
    hide Caps, Budget;
  }

  /** Unless a needed fact was unknown, a count fits every cap exactly when it is at most `qty`. */
  lemma SizeIsGreatestFit(strategy: Strategy, conviction: real, maxLossPerContract: real, state: SizingState,
                          settings: Settings, strike: Option<real>, k: nat)
    requires settings.Valid()
    requires strike.Some? ==> strike.value > 0.0
    requires Sized(Size(strategy, conviction, maxLossPerContract, state, settings, strike))
    ensures Fits(k, strategy, conviction, maxLossPerContract, state, settings, strike)
       <==> k <= Size(strategy, conviction, maxLossPerContract, state, settings, strike).qty
  {
    hide Fits, Caps, Budget, Size;
    SizeSettles(strategy, conviction, maxLossPerContract, state, settings, strike);
    var budget := Budget(conviction, state, settings);
    assert state == state.(equity := Some(state.equity.value));
    BudgetFollowsEquity(conviction, state, settings, state.equity.value, state.equity.value);
    var each := Collateral(strategy, maxLossPerContract, strike);
    var caps := Caps(strategy, maxLossPerContract, budget, each.value, state, settings, strike);
    CapsNonNegative(strategy, maxLossPerContract, budget, state, settings, strike);
    CapsFit(strategy, conviction, maxLossPerContract, state, settings, strike, k);
    TightestBounds(caps, k);
    TightestBounds(caps, 0);
  }

  /** What sizing needs to know before it can list the caps. */
  predicate Known(strategy: Strategy, maxLossPerContract: real, state: SizingState, strike: Option<real>) {
    && state.equity.Some? && maxLossPerContract > 0.0
    && (strategy != CoveredCall ==> state.buyingPower.Some?)
    && (strategy == CashSecuredPut ==> state.cash.Some? && strike.Some? && strike.value > 0.0)
  }

  lemma CapsNonNegative(strategy: Strategy, maxLossPerContract: real, budget: real, state: SizingState,
                        settings: Settings, strike: Option<real>)
    requires settings.Valid() && Known(strategy, maxLossPerContract, state, strike) && budget >= 0.0
    ensures var each := Collateral(strategy, maxLossPerContract, strike);
            && each.Some?
            && forall c | c in Caps(strategy, maxLossPerContract, budget, each.value, state, settings, strike) ::
                 c.1 >= 0
  {
    hide Affordable, Usable;
    var each := Collateral(strategy, maxLossPerContract, strike);
    AffordableNonNegative(budget, maxLossPerContract);
    if strategy != CoveredCall {
      UsableNonNegative(state.buyingPower.value, settings);
      AffordableNonNegative(Usable(state.buyingPower.value, settings), each.value);
    }
    if strategy == CashSecuredPut {
      AffordableNonNegative(Max(0.0, state.cash.value), strike.value * MULTIPLIER);
    }
  }

  lemma CapsFit(strategy: Strategy, conviction: real, maxLossPerContract: real, state: SizingState,
                settings: Settings, strike: Option<real>, k: nat)
    requires settings.Valid() && Known(strategy, maxLossPerContract, state, strike)
    ensures var each := Collateral(strategy, maxLossPerContract, strike);
            && each.Some?
            && (Fits(k, strategy, conviction, maxLossPerContract, state, settings, strike)
                <==> forall c | c in Caps(strategy, maxLossPerContract, Budget(conviction, state, settings),
                                          each.value, state, settings, strike) :: k <= c.1)
  {
    hide Affordable, Usable, Cost, Budget;
    var each := Collateral(strategy, maxLossPerContract, strike);
    var caps := Caps(strategy, maxLossPerContract, Budget(conviction, state, settings), each.value, state, settings, strike);
    FloorDivision(k, Budget(conviction, state, settings), maxLossPerContract);
    assert caps[0] in caps;
    if strategy != CoveredCall {
      FloorDivision(k, Usable(state.buyingPower.value, settings), each.value);
      assert caps[1] in caps;
    }
    if strategy == CashSecuredPut {
      FloorDivision(k, Max(0.0, state.cash.value), strike.value * MULTIPLIER);
      assert caps[2] in caps;
    }
  }

  lemma AffordableNonNegative(x: real, y: real)
    requires x >= 0.0 && y > 0.0
    ensures Affordable(x, y) >= 0
  {
    DivMonotone(0.0, x, y);
  }

  lemma UsableNonNegative(buyingPower: real, settings: Settings)
    requires settings.Valid()
    ensures Usable(buyingPower, settings) >= 0.0
  {}

  lemma UsableMonotone(low: real, high: real, settings: Settings)
    requires settings.Valid() && low <= high
    ensures Usable(low, settings) <= Usable(high, settings)
  {
    var a, b, cap := Max(0.0, low), Max(0.0, high), settings.buyingPowerCap;
    assert Usable(low, settings) == a * cap && Usable(high, settings) == b * cap;
    MulMonotone(a, b, cap, cap);
  }

  lemma {:induction false} TightestBounds(caps: seq<(Cap, int)>, k: int)
    requires caps != []
    ensures k <= Tightest(caps).1 <==> forall c :: c in caps ==> k <= c.1
  {
    assert Tightest(caps) in caps;
  }

  /** The routine sizes, rather than blocking, exactly when everything it reads is known and positive. */
  lemma SizedExactlyWhenKnown(strategy: Strategy, conviction: real, maxLossPerContract: real, state: SizingState,
                              settings: Settings, strike: Option<real>)
    requires settings.Valid()
    requires strike.Some? ==> strike.value > 0.0
    ensures Sized(Size(strategy, conviction, maxLossPerContract, state, settings, strike))
       <==> && (state.sessionsRemaining.Some? ==> state.sessionsRemaining.value > settings.minSessionsToHold)
            && state.equity.Some? && state.equity.value > 0.0
            && maxLossPerContract > 0.0
            && (strategy != CoveredCall ==> state.buyingPower.Some?)
            && (strategy == CashSecuredPut ==> state.cash.Some? && strike.Some?)
  {
    if strategy == CashSecuredPut && strike.Some? { assert strike.value * MULTIPLIER > 0.0; }
  }

  /**
   * With everything else fixed, more equity, more buying power or more cash never shrinks the trade:
   * read the other way, a loss never sizes a trade up.
   */
  lemma SizeMonotone(strategy: Strategy, conviction: real, maxLossPerContract: real, state: SizingState,
                     richer: SizingState, settings: Settings, strike: Option<real>)
    requires settings.Valid()
    requires strike.Some? ==> strike.value > 0.0
    requires richer == state.(equity := richer.equity, buyingPower := richer.buyingPower, cash := richer.cash)
    requires state.equity.Some? ==> richer.equity.Some? && state.equity.value <= richer.equity.value
    requires state.buyingPower.Some? ==> richer.buyingPower.Some? && state.buyingPower.value <= richer.buyingPower.value
    requires state.cash.Some? ==> richer.cash.Some? && state.cash.value <= richer.cash.value
    ensures Size(strategy, conviction, maxLossPerContract, state, settings, strike).qty
         <= Size(strategy, conviction, maxLossPerContract, richer, settings, strike).qty
  {
    hide Budget, Usable, Size, Cost;
    var d := Size(strategy, conviction, maxLossPerContract, state, settings, strike);
    if Sized(d) {
      SizedExactlyWhenKnown(strategy, conviction, maxLossPerContract, state, settings, strike);
      SizedExactlyWhenKnown(strategy, conviction, maxLossPerContract, richer, settings, strike);
      SizeIsGreatestFit(strategy, conviction, maxLossPerContract, state, settings, strike, d.qty);
      var e1, e2 := state.equity.value, richer.equity.value;
      BudgetFollowsEquity(conviction, state, settings, e1, e2);
      assert state.(equity := Some(e1)) == state;
      BudgetReadsEquityOnly(conviction, state, richer, settings);
      if strategy != CoveredCall {
        UsableMonotone(state.buyingPower.value, richer.buyingPower.value, settings);
      }
      assert Fits(d.qty, strategy, conviction, maxLossPerContract, richer, settings, strike);
      SizeIsGreatestFit(strategy, conviction, maxLossPerContract, richer, settings, strike, d.qty);
    } else {
      BlockedIsZero(strategy, conviction, maxLossPerContract, state, settings, strike);
    }
  }

  lemma BlockedIsZero(strategy: Strategy, conviction: real, maxLossPerContract: real, state: SizingState,
                      settings: Settings, strike: Option<real>)
    requires settings.Valid()
    requires strike.Some? ==> strike.value > 0.0
    requires Size(strategy, conviction, maxLossPerContract, state, settings, strike).blocked.Some?
    ensures Size(strategy, conviction, maxLossPerContract, state, settings, strike).qty == 0
  {
    hide Caps, Budget;
  }

  lemma BudgetReadsEquityOnly(conviction: real, state: SizingState, richer: SizingState, settings: Settings)
    requires settings.Valid()
    requires richer == state.(equity := richer.equity, buyingPower := richer.buyingPower, cash := richer.cash)
    requires richer.equity.Some?
    ensures Budget(conviction, richer, settings) == Budget(conviction, state.(equity := richer.equity), settings)
  {
    hide ConvictionScalar;
    var other := state.(equity := richer.equity);
    assert Scalars(conviction, richer, settings) == Scalars(conviction, other, settings);
  }
}
