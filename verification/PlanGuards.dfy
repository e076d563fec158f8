/** What every built plan was checked for, read from the plan itself, and that every refusal says the truth. */
module PlanGuards {
  import opened Models
  import opened Reals
  import opened Sizing
  import opened Selection
  import opened StrategyBuilder
  import opened PlanRisk

  // ---- The legs -----------------------------------------------------------

  /** In the window of days asked for. */
  predicate InTime(c: Contract, intent: Intent, today: int) { intent.dteMin <= c.expiry - today <= intent.dteMax }

  /**
   * The leg is a listed contract of the window, liquid, with its own delta, or the model's where it has
   * none, and valid fields.
   */
  ghost predicate Listed(leg: Leg, universe: seq<Contract>, intent: Intent, st: Settings, m: Market) {
    exists c: Contract ::
      && c in universe && InTime(c, intent, m.today) && leg == MakeLeg(c, leg.side, EffectiveDelta(c, m))
      && leg.delta == (if c.delta.Some? then c.delta else m.blackScholes(c))
      && leg.strike > 0.0 && (leg.delta.Some? ==> -1.0 <= leg.delta.value <= 1.0)
      && LiquidityRejection(c, st).None? && LegFields(c, leg.delta)
  }

  predicate Puts(short: Leg, long: Leg) {
    && short.side == Sell && long.side == Buy && short.optionType == Put && long.optionType == Put
    && long.strike < short.strike
  }

  predicate Calls(short: Leg, long: Leg) {
    && short.side == Sell && long.side == Buy && short.optionType == Call && long.optionType == Call
    && short.strike < long.strike
  }

  predicate Single(legs: seq<Leg>, side: Side, t: OptionType) {
    |legs| == 1 && legs[0].side == side && legs[0].optionType == t
  }

  /** What the legs of each strategy are. */
  predicate Shaped(strategy: Strategy, legs: seq<Leg>) {
    match strategy
    case LongCall => Single(legs, Buy, Call)
    case LongPut => Single(legs, Buy, Put)
    case CoveredCall => Single(legs, Sell, Call)
    case CashSecuredPut => Single(legs, Sell, Put)
    case DebitCallSpread =>
      |legs| == 2 && Single(legs[..1], Buy, Call) && Single(legs[1..], Sell, Call) && legs[0].strike < legs[1].strike
    case DebitPutSpread =>
      |legs| == 2 && Single(legs[..1], Buy, Put) && Single(legs[1..], Sell, Put) && legs[1].strike < legs[0].strike
    case LongStrangle =>
      |legs| == 2 && Single(legs[..1], Buy, Call) && Single(legs[1..], Buy, Put) && legs[1].strike < legs[0].strike
    case PutCreditSpread => |legs| == 2 && Puts(legs[0], legs[1])
    case CallCreditSpread => |legs| == 2 && Calls(legs[0], legs[1])
    case IronCondor => |legs| == 4 && Puts(legs[0], legs[1]) && Calls(legs[2], legs[3]) && legs[0].strike < legs[2].strike
    case IronButterfly => |legs| == 4 && Puts(legs[0], legs[1]) && Calls(legs[2], legs[3]) && legs[0].strike == legs[2].strike
    case _ => false
  }

  /** One expiry, the strategy's own legs, each a listed one. */
  ghost predicate GoodLegs(strategy: Strategy, legs: seq<Leg>, universe: seq<Contract>, intent: Intent, st: Settings,
                           m: Market) {
    && Shaped(strategy, legs)
    && (forall leg :: leg in legs ==> Listed(leg, universe, intent, st, m))
    && (forall a, b :: a in legs && b in legs ==> a.expiry == b.expiry)
  }

  lemma MadeIsListed(c: Contract, side: Side, universe: seq<Contract>, intent: Intent, st: Settings, m: Market)
    requires c in universe && InTime(c, intent, m.today) && LiquidityRejection(c, st).None?
    requires LegFields(c, EffectiveDelta(c, m))
    ensures Listed(MakeLeg(c, side, EffectiveDelta(c, m)), universe, intent, st, m)
  {}

  // ---- The figures --------------------------------------------------------

  /**
   * The economics each kind of structure is held to: a credit is between two fractions of the width
   * risked, a debit at most one, for enough reward; a call is written on a hundred shares held long.
   */
  ghost predicate GoodFigures(plan: OrderPlan, holding: Option<Holding>, st: Settings) {
    && (IsCredit(plan.strategy) ==>
          plan.maxProfit.Some?
          && st.minCreditWidthPct * (plan.maxLoss + plan.maxProfit.value) <= plan.maxProfit.value
          && plan.maxProfit.value <= st.maxCreditWidthPct * (plan.maxLoss + plan.maxProfit.value))
    && (IsVertical(plan.strategy) ==>
          plan.maxProfit.Some?
          && plan.maxLoss <= st.maxDebitWidthPct * (plan.maxLoss + plan.maxProfit.value)
          && st.minRewardRisk * plan.maxLoss <= plan.maxProfit.value)
    && (plan.strategy == CoveredCall ==>
          holding.Some? && holding.value.qty.Some? && holding.value.qty.value >= 100.0 && !holding.value.short)
  }

  lemma RatioScaled(part: real, whole: real, fraction: real, q: nat)
    requires whole > 0.0
    ensures part / whole <= fraction ==> part * MULTIPLIER * q as real <= fraction * (whole * MULTIPLIER * q as real)
    ensures fraction <= part / whole ==> fraction * (whole * MULTIPLIER * q as real) <= part * MULTIPLIER * q as real
  {
    var ratio, n := part / whole, MULTIPLIER * q as real;
    assert ratio * whole == part;
    if ratio <= fraction { ScaledBy(ratio, fraction, whole, n); }
    if fraction <= ratio { ScaledBy(fraction, ratio, whole, n); }
    assert part * MULTIPLIER * q as real == part * n && whole * MULTIPLIER * q as real == whole * n;
    assert (ratio * whole) * n == ratio * (whole * n);
  }

  lemma ScaledBy(low: real, high: real, x: real, n: real)
    requires low <= high && x > 0.0 && n >= 0.0
    ensures low * (x * n) <= high * (x * n)
  {
    assert x * n >= 0.0;
    assert (high - low) * (x * n) >= 0.0;
    assert (high - low) * (x * n) == high * (x * n) - low * (x * n);
  }

  /** The plan carries what was asked for, and is a positive number of contracts. */
  predicate Labelled(plan: OrderPlan, intent: Intent, id: nat) {
    && plan.proposalId == id && plan.underlying == intent.underlying && plan.strategy == intent.strategy && plan.qty > 0
  }

  ghost predicate FitsUpTo(plan: OrderPlan, unit: real, intent: Intent, state: SizingState, st: Settings)
    requires st.Valid() && plan.legs != []
  {
    var strike := if IsFunnel(plan.strategy) then Some(plan.legs[0].strike) else None;
    forall k: nat :: Fits(k, plan.strategy, intent.conviction, unit, state, st, strike) <==> k <= plan.qty
  }

  /** The count is the greatest that fits, at the loss one contract is said to risk. */
  ghost predicate GreatestFit(plan: OrderPlan, intent: Intent, state: SizingState, st: Settings)
    requires st.Valid()
  {
    && plan.legs != [] && plan.qty > 0
    && exists unit :: plan.maxLoss == Cost(plan.qty, unit) && FitsUpTo(plan, unit, intent, state, st)
  }

  ghost predicate Checked(plan: OrderPlan, universe: seq<Contract>, intent: Intent, state: SizingState,
                          holding: Option<Holding>, st: Settings, id: nat, m: Market)
    requires st.Valid()
  {
    && Labelled(plan, intent, id) && GoodLegs(plan.strategy, plan.legs, universe, intent, st, m)
    && GoodFigures(plan, holding, st) && GreatestFit(plan, intent, state, st)
  }

  lemma FinishedIs(intent: Intent, legs: seq<Leg>, limitPrice: real, p: Profile, state: SizingState,
                   st: Settings, id: nat, strike: Option<real>)
    requires st.Valid() && (strike.Some? ==> strike.value > 0.0) && legs != []
    requires strike == if IsFunnel(intent.strategy) then Some(legs[0].strike) else None
    requires Finish(intent, legs, limitPrice, p, state, st, id, strike).Planned?
    ensures var plan := Finish(intent, legs, limitPrice, p, state, st, id, strike).plan;
            Labelled(plan, intent, id) && GreatestFit(plan, intent, state, st) && plan.legs == legs && Backed(plan, p)
  {
    FinishLabels(intent, legs, limitPrice, p, state, st, id, strike);
    FinishBacks(intent, legs, limitPrice, p, state, st, id, strike);
    var plan := Finish(intent, legs, limitPrice, p, state, st, id, strike).plan;
    hide Finish, Size, Fits;
    SizedMeansSized(intent.strategy, intent.conviction, p.maxLoss, state, st, strike);
    assert plan.strategy == intent.strategy && plan.legs == legs;
    BackedCost(plan, p);
    hide Backed, Cost;
    forall k: nat
      ensures Fits(k, plan.strategy, intent.conviction, p.maxLoss, state, st, strike) <==> k <= plan.qty
    {
      SizeIsGreatestFit(intent.strategy, intent.conviction, p.maxLoss, state, st, strike, k);
    }
  }

  lemma FinishLabels(intent: Intent, legs: seq<Leg>, limitPrice: real, p: Profile, state: SizingState,
                     st: Settings, id: nat, strike: Option<real>)
    requires st.Valid() && (strike.Some? ==> strike.value > 0.0)
    requires Finish(intent, legs, limitPrice, p, state, st, id, strike).Planned?
    ensures Labelled(Finish(intent, legs, limitPrice, p, state, st, id, strike).plan, intent, id)
    ensures Finish(intent, legs, limitPrice, p, state, st, id, strike).plan.qty
         == Size(intent.strategy, intent.conviction, p.maxLoss, state, st, strike).qty
  {
    hide Size;
  }

  lemma BackedCost(plan: OrderPlan, p: Profile)
    requires Backed(plan, p)
    ensures plan.maxLoss == Cost(plan.qty, p.maxLoss)
  {}

  // ---- Plans of one option type -------------------------------------------

  lemma VerticalFigures(strategy: Strategy, primary: Contract, partner: Contract, entry: real, spot: real,
                        holding: Option<Holding>, st: Settings, q: nat)
    requires IsVertical(strategy) && partner.strike != primary.strike && q > 0
    requires RiskProfile(strategy, primary, Some(partner), entry, spot, holding, st).Assessed?
    requires RiskProfile(strategy, primary, Some(partner), entry, spot, holding, st).p.maxLoss > 0.0
    ensures var p := RiskProfile(strategy, primary, Some(partner), entry, spot, holding, st).p;
            && p.maxProfit.Some?
            && var loss, profit := p.maxLoss * q as real, p.maxProfit.value * q as real;
               loss <= st.maxDebitWidthPct * (loss + profit) && st.minRewardRisk * loss <= profit
  {
    var width := Abs(primary.strike - partner.strike);
    var p := RiskProfile(strategy, primary, Some(partner), entry, spot, holding, st).p;
    RatioScaled(entry, width, st.maxDebitWidthPct, q);
    var ratio := p.maxProfit.value / p.maxLoss;
    assert ratio * p.maxLoss == p.maxProfit.value;
    ScaledBy(st.minRewardRisk, ratio, p.maxLoss, q as real);
    assert (width - entry) * MULTIPLIER * q as real + entry * MULTIPLIER * q as real == width * MULTIPLIER * q as real;
    assert ratio * (p.maxLoss * q as real) == p.maxProfit.value * q as real;
  }

  lemma FunnelFinishChecked(intent: Intent, primary: Contract, delta: Option<real>, partner: Option<Contract>,
                            legs: seq<Leg>, state: SizingState, holding: Option<Holding>, st: Settings, id: nat, m: Market)
    requires st.Valid() && IsFunnel(intent.strategy)
    requires Priced(primary) && primary.strike > 0.0
    requires partner.Some? <==> IsVertical(intent.strategy)
    requires partner.Some? ==> Priced(partner.value) && partner.value.strike != primary.strike
    requires legs != [] && legs[0].strike == primary.strike
    requires FinishFunnel(intent, primary, partner, legs, state, holding, st, id, m).Planned?
    ensures var plan := FinishFunnel(intent, primary, partner, legs, state, holding, st, id, m).plan;
            && Labelled(plan, intent, id) && GreatestFit(plan, intent, state, st) && plan.legs == legs
            && GoodFigures(plan, holding, st)
  {
    hide Finish, GreatestFit, EntryPrice;
    var entry := EntryPrice(intent.strategy, primary, partner, st).value;
    var p := RiskProfile(intent.strategy, primary, partner, entry, m.spot, holding, st).p;
    FinishedIs(intent, legs, entry, p, state, st, id, Some(primary.strike));
    if IsVertical(intent.strategy) {
      var plan := FinishFunnel(intent, primary, partner, legs, state, holding, st, id, m).plan;
      VerticalFigures(intent.strategy, primary, partner.value, entry, m.spot, holding, st, plan.qty);
    }
  }

  lemma OneGoodLeg(strategy: Strategy, leg: Leg, universe: seq<Contract>, intent: Intent, st: Settings, m: Market)
    requires IsFunnel(strategy) && !IsVertical(strategy) && Listed(leg, universe, intent, st, m)
    requires leg.side == (if IsShortOnly(strategy) then Sell else Buy) && leg.optionType == FunnelType(strategy)
    ensures GoodLegs(strategy, [leg], universe, intent, st, m)
  {
    hide Listed;
  }

  lemma TwoGoodLegs(strategy: Strategy, a: Leg, b: Leg, universe: seq<Contract>, intent: Intent, st: Settings,
                    m: Market)
    requires Listed(a, universe, intent, st, m) && Listed(b, universe, intent, st, m) && a.expiry == b.expiry
    requires a.side == Buy
    requires (strategy == DebitCallSpread && b.side == Sell && a.optionType == b.optionType == Call && a.strike < b.strike)
          || (strategy == DebitPutSpread && b.side == Sell && a.optionType == b.optionType == Put && b.strike < a.strike)
          || (strategy == LongStrangle && b.side == Buy && a.optionType == Call && b.optionType == Put && b.strike < a.strike)
    ensures GoodLegs(strategy, [a, b], universe, intent, st, m)
  {
    hide Listed;
    assert [a, b][..1] == [a] && [a, b][1..] == [b];
  }

  /** The contract a plan of one type is built on. */
  function Chosen(intent: Intent, universe: seq<Contract>, st: Settings, m: Market): Option<Pick>
    requires IsFunnel(intent.strategy)
  {
    var t := FunnelType(intent.strategy);
    Primary(InWindow(OfType(universe, t), intent, m.today), t, intent, st, m)
  }

  /** The contracts its partner is looked for among. */
  function SameExpiry(intent: Intent, universe: seq<Contract>, primary: Contract, m: Market): seq<Contract>
    requires IsFunnel(intent.strategy)
  {
    OfExpiry(InWindow(OfType(universe, FunnelType(intent.strategy)), intent, m.today), primary.expiry)
  }

  lemma ChosenIsInTime(intent: Intent, universe: seq<Contract>, st: Settings, m: Market)
    requires IsFunnel(intent.strategy) && Chosen(intent, universe, st, m).Some?
    ensures var pick := Chosen(intent, universe, st, m).value;
            && pick.contract in universe && InTime(pick.contract, intent, m.today)
            && pick.contract.optionType == FunnelType(intent.strategy)
            && EffectiveDelta(pick.contract, m) == Some(pick.delta)
            && pick.contract in SameExpiry(intent, universe, pick.contract, m)
    ensures forall c, primary :: c in SameExpiry(intent, universe, primary, m) ==>
              c in universe && InTime(c, intent, m.today) && c.expiry == primary.expiry
              && c.optionType == FunnelType(intent.strategy)
  {
    hide Primary;
  }

  lemma LoneFunnelIs(intent: Intent, universe: seq<Contract>, state: SizingState, holding: Option<Holding>,
                     st: Settings, id: nat, m: Market)
    requires st.Valid() && IsFunnel(intent.strategy) && !IsVertical(intent.strategy)
    requires FunnelPlan(intent, universe, state, holding, st, id, m).Planned?
    ensures Chosen(intent, universe, st, m).Some?
    ensures var pick := Chosen(intent, universe, st, m).value;
            var c, delta := pick.contract, Some(pick.delta);
            && LiquidityRejection(c, st).None? && LegFields(c, delta)
            && FunnelPlan(intent, universe, state, holding, st, id, m)
               == FinishFunnel(intent, c, None, [MakeLeg(c, if IsShortOnly(intent.strategy) then Sell else Buy, delta)],
                               state, holding, st, id, m)
  {
    hide FinishFunnel, Primary, LiquidityRejection, LegFields, Secondary, InWindow, OfType;
  }

  lemma VerticalFunnelIs(intent: Intent, universe: seq<Contract>, state: SizingState, holding: Option<Holding>,
                         st: Settings, id: nat, m: Market)
    requires st.Valid() && IsVertical(intent.strategy)
    requires FunnelPlan(intent, universe, state, holding, st, id, m).Planned?
    ensures Chosen(intent, universe, st, m).Some?
    ensures var pick := Chosen(intent, universe, st, m).value;
            var sameExpiry := SameExpiry(intent, universe, pick.contract, m);
            && pick.contract in sameExpiry
            && Secondary(intent, sameExpiry, pick.contract, st, m).0.Some?
            && var c, short := pick.contract, Secondary(intent, sameExpiry, pick.contract, st, m).0.value;
               && LiquidityRejection(c, st).None? && LegFields(c, Some(pick.delta))
               && LiquidityRejection(short, st).None? && LegFields(short, EffectiveDelta(short, m))
               && short.strike != c.strike
               && FunnelPlan(intent, universe, state, holding, st, id, m)
                  == FinishFunnel(intent, c, Some(short),
                                  [MakeLeg(c, Buy, Some(pick.delta)), MakeLeg(short, Sell, EffectiveDelta(short, m))],
                                  state, holding, st, id, m)
  {
    hide FinishFunnel, Primary, LiquidityRejection, LegFields, Secondary;
  }

  lemma FunnelChecked(intent: Intent, universe: seq<Contract>, state: SizingState, holding: Option<Holding>,
                      st: Settings, id: nat, m: Market)
    requires st.Valid() && IsFunnel(intent.strategy)
    requires FunnelPlan(intent, universe, state, holding, st, id, m).Planned?
    ensures Checked(FunnelPlan(intent, universe, state, holding, st, id, m).plan, universe, intent, state, holding, st, id, m)
  {
    hide FunnelPlan, FinishFunnel, Secondary, GreatestFit, GoodFigures, GoodLegs, Listed, Chosen, SameExpiry, LiquidityRejection;
    if IsVertical(intent.strategy) {
      VerticalFunnelIs(intent, universe, state, holding, st, id, m);
      ChosenIsInTime(intent, universe, st, m);
      var pick := Chosen(intent, universe, st, m).value;
      var c, sameExpiry := pick.contract, SameExpiry(intent, universe, pick.contract, m);
      PartnerIsOutOfTheMoney(intent, sameExpiry, c, st, m);
      var short := Secondary(intent, sameExpiry, c, st, m).0.value;
      MadeIsListed(c, Buy, universe, intent, st, m);
      MadeIsListed(short, Sell, universe, intent, st, m);
      var first, second := MakeLeg(c, Buy, Some(pick.delta)), MakeLeg(short, Sell, EffectiveDelta(short, m));
      TwoGoodLegs(intent.strategy, first, second, universe, intent, st, m);
      FunnelFinishChecked(intent, c, Some(pick.delta), Some(short), [first, second], state, holding, st, id, m);
    } else {
      LoneFunnelIs(intent, universe, state, holding, st, id, m);
      ChosenIsInTime(intent, universe, st, m);
      var pick := Chosen(intent, universe, st, m).value;
      var side := if IsShortOnly(intent.strategy) then Sell else Buy;
      MadeIsListed(pick.contract, side, universe, intent, st, m);
      OneGoodLeg(intent.strategy, MakeLeg(pick.contract, side, Some(pick.delta)), universe, intent, st, m);
      FunnelFinishChecked(intent, pick.contract, Some(pick.delta), None,
                          [MakeLeg(pick.contract, side, Some(pick.delta))], state, holding, st, id, m);
    }
  }

  // ---- Strangles ----------------------------------------------------------

  lemma StrangleChecked(intent: Intent, universe: seq<Contract>, state: SizingState, holding: Option<Holding>,
                        st: Settings, id: nat, m: Market)
    requires st.Valid() && intent.strategy == LongStrangle
    requires StranglePlan(intent, universe, state, st, id, m).Planned?
    ensures Checked(StranglePlan(intent, universe, state, st, id, m).plan, universe, intent, state, holding, st, id, m)
  {
    hide Best, StrangleOffer, FinishStrangle, LiquidityRejection, LegFields, GreatestFit, GoodLegs, Listed, InWindow;
    var inWindow := InWindow(universe, intent, m.today);
    var call, put := BestStrangle(intent, inWindow, st, m);
    StrangleDeltas(intent, inWindow, st, m);
    StrangleFinishChecked(intent, call, put, state, st, id);
    InWindowIs(universe, intent, m.today);
    MadeIsListed(call.contract, Buy, universe, intent, st, m);
    MadeIsListed(put.contract, Buy, universe, intent, st, m);
    TwoGoodLegs(LongStrangle, MakeLeg(call.contract, Buy, Some(call.delta)), MakeLeg(put.contract, Buy, Some(put.delta)),
                universe, intent, st, m);
  }

  lemma InWindowIs(universe: seq<Contract>, intent: Intent, today: int)
    ensures forall c :: c in InWindow(universe, intent, today) <==> c in universe && InTime(c, intent, today)
  {}

  lemma StrangleFinishChecked(intent: Intent, call: Pick, put: Pick, state: SizingState, st: Settings, id: nat)
    requires st.Valid() && intent.strategy == LongStrangle && FinishStrangle(intent, call, put, state, st, id).Planned?
    ensures var plan := FinishStrangle(intent, call, put, state, st, id).plan;
            && Labelled(plan, intent, id) && GreatestFit(plan, intent, state, st)
            && plan.legs == [MakeLeg(call.contract, Buy, Some(call.delta)), MakeLeg(put.contract, Buy, Some(put.delta))]
    ensures LiquidityRejection(call.contract, st).None? && LiquidityRejection(put.contract, st).None?
    ensures LegFields(call.contract, Some(call.delta)) && LegFields(put.contract, Some(put.delta))
  {
    hide Finish, LiquidityRejection, StrangleEntry, LegFields, GreatestFit;
    var c, p := call.contract, put.contract;
    assert c in [c, p] && p in [c, p];
    var entry := StrangleEntry(c, p, st);
    var legs := [MakeLeg(c, Buy, Some(call.delta)), MakeLeg(p, Buy, Some(put.delta))];
    FinishedIs(intent, legs, entry, Profile(entry * MULTIPLIER, None, None), state, st, id, None);
  }

  lemma StrangleDeltas(intent: Intent, inWindow: seq<Contract>, st: Settings, m: Market)
    requires Best(Expiries(inWindow), StrangleOffer(intent, inWindow, st, m)).Some?
    ensures var (call, put) := Best(Expiries(inWindow), StrangleOffer(intent, inWindow, st, m)).value.1;
            EffectiveDelta(call.contract, m) == Some(call.delta) && EffectiveDelta(put.contract, m) == Some(put.delta)
  {
    hide Best, Closest, Penalty;
    var offer := StrangleOffer(intent, inWindow, st, m);
    var e :| e in Expiries(inWindow) && offer(e) == Best(Expiries(inWindow), offer);
  }

  // ---- Credit structures --------------------------------------------------

  /** Both legs of a vertical carry their own deltas. */
  predicate OwnDeltas(vs: seq<Vertical>, m: Market) {
    forall v :: v in vs ==> v.shortDelta == EffectiveDelta(v.short, m) && v.longDelta == EffectiveDelta(v.long, m)
  }

  lemma VerticalDeltas(sameExpiry: seq<Contract>, t: OptionType, target: real, width: real, gap: real, m: Market,
                       pinned: Option<real>)
    ensures var v := CreditVertical(sameExpiry, t, target, width, gap, m, pinned);
            v.Some? ==> OwnDeltas([v.value], m)
  {
    hide Anchor, NearestListed, WingSide;
  }

  lemma AssembledDeltas(intent: Intent, sameExpiry: seq<Contract>, st: Settings, m: Market, dte: int)
    requires IsCredit(intent.strategy) && AssembleVerticals(intent, sameExpiry, st, m, dte).Some?
    ensures OwnDeltas(AssembleVerticals(intent, sameExpiry, st, m, dte).value, m)
  {
    hide Ladder, MinGap, TargetWidth, SharedLadder, Nearest, CreditVertical;
    forall t: OptionType, width, gap, pinned
      ensures var v := CreditVertical(sameExpiry, t, intent.targetDelta, width, gap, m, pinned);
              v.Some? ==> OwnDeltas([v.value], m)
    {
      VerticalDeltas(sameExpiry, t, intent.targetDelta, width, gap, m, pinned);
    }
    var vs := AssembleVerticals(intent, sameExpiry, st, m, dte).value;
    forall v | v in vs ensures OwnDeltas([v], m) { }
    assert forall v :: v in vs ==> v in [v];
  }

  lemma BestCreditDeltas(intent: Intent, inWindow: seq<Contract>, st: Settings, m: Market)
    requires IsCredit(intent.strategy) && Best(Expiries(inWindow), CreditOffer(intent, inWindow, st, m)).Some?
    ensures OwnDeltas(Best(Expiries(inWindow), CreditOffer(intent, inWindow, st, m)).value.1, m)
  {
    hide Best, AssembleVerticals, OwnDeltas, Penalty, TotalScore, OfExpiry;
    var offer := CreditOffer(intent, inWindow, st, m);
    var e :| e in Expiries(inWindow) && offer(e) == Best(Expiries(inWindow), offer);
    AssembledDeltas(intent, OfExpiry(inWindow, e), st, m, e - m.today);
  }

  lemma CreditFigures(plan: OrderPlan, p: Profile, credit: real, width: real, holding: Option<Holding>, st: Settings)
    requires IsCredit(plan.strategy) && Backed(plan, p)
    requires CreditProfile(p, credit, width) && FairCredit(credit, width, st)
    ensures GoodFigures(plan, holding, st)
  {
    var q := plan.qty;
    RatioScaled(credit, width, st.minCreditWidthPct, q);
    RatioScaled(credit, width, st.maxCreditWidthPct, q);
    assert (width - credit) * MULTIPLIER * q as real + credit * MULTIPLIER * q as real == width * MULTIPLIER * q as real;
  }

  /** A positive credit between the two fractions of the width. */
  predicate FairCredit(credit: real, width: real, st: Settings) {
    0.0 < credit < width && st.minCreditWidthPct <= credit / width <= st.maxCreditWidthPct
  }

  /** What a planned credit structure got past. */
  lemma {:induction false} CreditGates(intent: Intent, vs: seq<Vertical>, credit: real, state: SizingState,
                                       st: Settings, id: nat)
    requires st.Valid() && IsCredit(intent.strategy) && vs != [] && WidestWing(vs) > 0.0
    requires FinishCredit(intent, vs, credit, state, st, id).Planned?
    ensures FairCredit(credit, WidestWing(vs), st)
    ensures forall v :: v in vs ==> LegFields(v.short, v.shortDelta) && LegFields(v.long, v.longDelta)
  {
    hide Finish, WidestWing, LegFields, CreditLegs, CreditBreakeven;
  }

  /** One contract's figures, at a credit and the width risked. */
  predicate CreditProfile(p: Profile, credit: real, width: real) {
    p.maxLoss == (width - credit) * MULTIPLIER && p.maxProfit == Some(credit * MULTIPLIER)
  }

  lemma CreditFinished(intent: Intent, vs: seq<Vertical>, credit: real, state: SizingState, st: Settings, id: nat)
    returns (p: Profile)
    requires st.Valid() && IsCredit(intent.strategy) && vs != [] && WidestWing(vs) > 0.0 && CreditLegs(vs) != []
    requires FinishCredit(intent, vs, credit, state, st, id).Planned?
    ensures var plan := FinishCredit(intent, vs, credit, state, st, id).plan;
            && Labelled(plan, intent, id) && GreatestFit(plan, intent, state, st) && plan.legs == CreditLegs(vs)
            && Backed(plan, p) && CreditProfile(p, credit, WidestWing(vs))
  {
    hide Finish, WidestWing, GreatestFit, LegFields, CreditLegs, CreditBreakeven, Backed;
    p := Profile((WidestWing(vs) - credit) * MULTIPLIER, Some(credit * MULTIPLIER),
                 CreditBreakeven(intent.strategy, vs[0].short.strike, credit));
    FinishedIs(intent, CreditLegs(vs), -credit, p, state, st, id, None);
  }

  lemma {:induction false} CreditFinishChecked(intent: Intent, vs: seq<Vertical>, credit: real, state: SizingState,
                            holding: Option<Holding>, st: Settings, id: nat)
    requires st.Valid() && IsCredit(intent.strategy) && vs != [] && WidestWing(vs) > 0.0
    requires FinishCredit(intent, vs, credit, state, st, id).Planned?
    ensures var plan := FinishCredit(intent, vs, credit, state, st, id).plan;
            && Labelled(plan, intent, id) && GreatestFit(plan, intent, state, st) && plan.legs == CreditLegs(vs)
            && GoodFigures(plan, holding, st)
            && forall v :: v in vs ==> LegFields(v.short, v.shortDelta) && LegFields(v.long, v.longDelta)
  {
    assert CreditLegs(vs) != [];
    hide FinishCredit, WidestWing, GreatestFit, GoodFigures, LegFields, CreditLegs, CreditProfile, FairCredit, Backed;
    CreditGates(intent, vs, credit, state, st, id);
    var p := CreditFinished(intent, vs, credit, state, st, id);
    CreditFigures(FinishCredit(intent, vs, credit, state, st, id).plan, p, credit, WidestWing(vs), holding, st);
  }

  /** Both legs of a vertical are listed ones of one expiry. */
  ghost predicate ListedPair(v: Vertical, expiry: int, universe: seq<Contract>, intent: Intent, st: Settings,
                             m: Market) {
    && Listed(MakeLeg(v.short, Sell, v.shortDelta), universe, intent, st, m)
    && Listed(MakeLeg(v.long, Buy, v.longDelta), universe, intent, st, m)
    && v.short.expiry == expiry && v.long.expiry == expiry
  }

  lemma PairIsListed(v: Vertical, t: OptionType, expiry: int, universe: seq<Contract>, intent: Intent, st: Settings,
                     m: Market)
    requires WingProtected(v, t, OfExpiry(InWindow(universe, intent, m.today), expiry))
    requires v.shortDelta == EffectiveDelta(v.short, m) && v.longDelta == EffectiveDelta(v.long, m)
    requires LiquidityRejection(v.short, st).None? && LiquidityRejection(v.long, st).None?
    requires LegFields(v.short, v.shortDelta) && LegFields(v.long, v.longDelta)
    ensures ListedPair(v, expiry, universe, intent, st, m)
  {
    hide LiquidityRejection, LegFields, Listed;
    MadeIsListed(v.short, Sell, universe, intent, st, m);
    MadeIsListed(v.long, Buy, universe, intent, st, m);
  }

  lemma {:induction false} PairedLegsGood(strategy: Strategy, vs: seq<Vertical>, cs: seq<Contract>, expiry: int,
                                        universe: seq<Contract>,
                       intent: Intent, st: Settings, m: Market)
    requires IsCredit(strategy) && Assembled(strategy, vs, cs)
    requires forall v :: v in vs ==> ListedPair(v, expiry, universe, intent, st, m)
    ensures GoodLegs(strategy, CreditLegs(vs), universe, intent, st, m)
  {
    hide Listed;
    assert vs[0] in vs && ListedPair(vs[0], expiry, universe, intent, st, m);
    if |vs| == 1 {
      assert CreditLegs(vs[1..]) == [];
    } else {
      assert vs[1] in vs && ListedPair(vs[1], expiry, universe, intent, st, m);
      assert vs[1..] == [vs[1]] && vs[1..][1..] == [] && CreditLegs(vs[1..][1..]) == [];
    }
  }

  lemma {:induction false} CreditLegsGood(strategy: Strategy, vs: seq<Vertical>, expiry: int, universe: seq<Contract>,
                                        intent: Intent,
                       st: Settings, m: Market)
    requires IsCredit(strategy) && Assembled(strategy, vs, OfExpiry(InWindow(universe, intent, m.today), expiry))
    requires OwnDeltas(vs, m) && FirstRejection(Contracts(vs), st).None?
    requires forall v :: v in vs ==> LegFields(v.short, v.shortDelta) && LegFields(v.long, v.longDelta)
    ensures GoodLegs(strategy, CreditLegs(vs), universe, intent, st, m)
  {
    hide LiquidityRejection, LegFields, GoodLegs, ListedPair, WingProtected, OfExpiry, InWindow;
    var cs := OfExpiry(InWindow(universe, intent, m.today), expiry);
    ContractsOf(vs);
    forall v | v in vs ensures ListedPair(v, expiry, universe, intent, st, m) {
      assert v == vs[0] || v == vs[1];
      PairIsListed(v, if WingProtected(v, Put, cs) then Put else Call, expiry, universe, intent, st, m);
    }
    PairedLegsGood(strategy, vs, cs, expiry, universe, intent, st, m);
  }

  lemma CreditChecked(intent: Intent, universe: seq<Contract>, state: SizingState, holding: Option<Holding>,
                      st: Settings, id: nat, m: Market)
    requires st.Valid() && IsCredit(intent.strategy)
    requires CreditPlan(intent, universe, state, st, id, m).Planned?
    ensures Checked(CreditPlan(intent, universe, state, st, id, m).plan, universe, intent, state, holding, st, id, m)
  {
    hide Best, CreditOffer, FinishCredit, FirstRejection, Credit, Assembled, WidestWing, Contracts, GoodFigures,
      GreatestFit, GoodLegs, LegFields, OwnDeltas;
    var inWindow := InWindow(universe, intent, m.today);
    var vs := Best(Expiries(inWindow), CreditOffer(intent, inWindow, st, m)).value.1;
    var expiry := BestCreditIsAssembled(intent, inWindow, st, m);
    BestCreditFacts(intent, inWindow, st, m);
    BestCreditDeltas(intent, inWindow, st, m);
    CreditFinishChecked(intent, vs, Credit(vs, st), state, holding, st, id);
    CreditLegsGood(intent.strategy, vs, expiry, universe, intent, st, m);
  }

  /**
   * Every plan the builder returns carries what was asked for, on listed, liquid legs of one expiry in
   * the window and of its strategy's shape, within the economics its settings demand, in the greatest
   * count that fits.
   */
  lemma PlanIsChecked(intent: Intent, universe: seq<Contract>, state: SizingState, holding: Option<Holding>,
                      st: Settings, id: nat, m: Market)
    requires st.Valid() && PlanFor(intent, universe, state, holding, st, id, m).Planned?
    ensures Checked(PlanFor(intent, universe, state, holding, st, id, m).plan, universe,
                    intent.(strategy := Canonical(intent.strategy)), state, holding, st, id, m)
  {
    hide StranglePlan, CreditPlan, FunnelPlan, Checked;
    var named := intent.(strategy := Canonical(intent.strategy));
    if named.strategy == LongStrangle {
      StrangleChecked(named, universe, state, holding, st, id, m);
    } else if IsCredit(named.strategy) {
      CreditChecked(named, universe, state, holding, st, id, m);
    } else {
      FunnelChecked(named, universe, state, holding, st, id, m);
    }
  }

  // ---- Which contract a plan of one type is built on ----------------------

  lemma FunnelKeepsLegs(intent: Intent, primary: Contract, partner: Option<Contract>, legs: seq<Leg>,
                        state: SizingState,
                        holding: Option<Holding>, st: Settings, id: nat, m: Market)
    requires st.Valid() && IsFunnel(intent.strategy) && Priced(primary) && primary.strike > 0.0
    requires partner.Some? <==> IsVertical(intent.strategy)
    requires partner.Some? ==> Priced(partner.value) && partner.value.strike != primary.strike
    requires FinishFunnel(intent, primary, partner, legs, state, holding, st, id, m).Planned?
    ensures FinishFunnel(intent, primary, partner, legs, state, holding, st, id, m).plan.legs == legs
  {
    hide Size, EntryPrice, RiskProfile;
  }

  lemma FirstLegIsChosen(intent: Intent, universe: seq<Contract>, state: SizingState, holding: Option<Holding>,
                         st: Settings, id: nat, m: Market)
    requires st.Valid() && IsFunnel(intent.strategy)
    requires FunnelPlan(intent, universe, state, holding, st, id, m).Planned?
    ensures var legs := FunnelPlan(intent, universe, state, holding, st, id, m).plan.legs;
            && legs != [] && Chosen(intent, universe, st, m).Some?
            && legs[0].delta == Some(Chosen(intent, universe, st, m).value.delta)
            && legs[0].expiry == Chosen(intent, universe, st, m).value.contract.expiry
  {
    hide FunnelPlan, FinishFunnel, Secondary, Chosen, SameExpiry, LiquidityRejection;
    ChosenAfterAll(intent, universe, state, holding, st, id, m);
    var pick := Chosen(intent, universe, st, m).value;
    var c := pick.contract;
    if IsVertical(intent.strategy) {
      VerticalFunnelIs(intent, universe, state, holding, st, id, m);
      var short := Secondary(intent, SameExpiry(intent, universe, c, m), c, st, m).0.value;
      FunnelKeepsLegs(intent, c, Some(short), [MakeLeg(c, Buy, Some(pick.delta)), MakeLeg(short, Sell, EffectiveDelta(short, m))],
                      state, holding, st, id, m);
    } else {
      LoneFunnelIs(intent, universe, state, holding, st, id, m);
      FunnelKeepsLegs(intent, c, None, [MakeLeg(c, if IsShortOnly(intent.strategy) then Sell else Buy, Some(pick.delta))],
                      state, holding, st, id, m);
    }
  }

  lemma ChosenAfterAll(intent: Intent, universe: seq<Contract>, state: SizingState, holding: Option<Holding>,
                       st: Settings, id: nat, m: Market)
    requires st.Valid() && IsFunnel(intent.strategy)
    requires FunnelPlan(intent, universe, state, holding, st, id, m).Planned?
    ensures Chosen(intent, universe, st, m).Some?
  {
    if IsVertical(intent.strategy) { VerticalFunnelIs(intent, universe, state, holding, st, id, m); }
    else { LoneFunnelIs(intent, universe, state, holding, st, id, m); }
  }

  /** The distance of a delta to the target or to its negative, whichever is nearer. */
  function OffTarget(delta: real, target: real): real { Min(Abs(delta - target), Abs(delta + target)) }

  lemma GapIsOffTarget(c: Contract, target: real, m: Market)
    requires target >= 0.0 && EffectiveDelta(c, m).Some?
    ensures DeltaGap(c, target, m) == OffTarget(EffectiveDelta(c, m).value, target)
  {}

  lemma ChosenIsClosest(intent: Intent, universe: seq<Contract>, st: Settings, m: Market, other: Contract)
    requires IsFunnel(intent.strategy) && Chosen(intent, universe, st, m).Some?
    requires other in universe && other.optionType == FunnelType(intent.strategy)
    requires intent.dteMin <= other.expiry - m.today <= intent.dteMax && EffectiveDelta(other, m).Some?
    ensures var pick, gap := Chosen(intent, universe, st, m).value, DeltaGap(other, intent.targetDelta, m);
            && EffectiveDelta(pick.contract, m) == Some(pick.delta)
            && pick.diff == DeltaGap(pick.contract, intent.targetDelta, m) <= gap
            && (pick.diff == gap && st.monthlyPreference && m.monthly(other.expiry) ==> m.monthly(pick.contract.expiry))
  {
    hide Primary, DeltaGap;
    var t := FunnelType(intent.strategy);
    var cs := InWindow(OfType(universe, t), intent, m.today);
    assert other in cs;
    if st.monthlyPreference && Chosen(intent, universe, st, m).value.diff == DeltaGap(other, intent.targetDelta, m) {
      MonthliesWinTies(cs, t, intent, st, m, other);
    }
  }

  lemma FunnelIsThePlan(intent: Intent, universe: seq<Contract>, state: SizingState, holding: Option<Holding>,
                        st: Settings, id: nat, m: Market)
    requires st.Valid() && IsFunnel(Canonical(intent.strategy))
    ensures PlanFor(intent, universe, state, holding, st, id, m)
         == FunnelPlan(intent.(strategy := Canonical(intent.strategy)), universe, state, holding, st, id, m)
  {
    hide FunnelPlan, CreditPlan, StranglePlan;
  }

  /**
   * The first leg's delta is as near the target as any contract's of its type in the window, and with
   * the preference for monthlies on it is a monthly whenever an equally near one is.
   */
  lemma FirstLegIsClosest(intent: Intent, universe: seq<Contract>, state: SizingState, holding: Option<Holding>,
                          st: Settings, id: nat, m: Market, other: Contract)
    requires st.Valid() && IsFunnel(Canonical(intent.strategy)) && intent.targetDelta >= 0.0
    requires PlanFor(intent, universe, state, holding, st, id, m).Planned?
    requires other in universe && other.optionType == FunnelType(Canonical(intent.strategy))
    requires intent.dteMin <= other.expiry - m.today <= intent.dteMax && EffectiveDelta(other, m).Some?
    ensures var legs := PlanFor(intent, universe, state, holding, st, id, m).plan.legs;
            && legs != [] && legs[0].delta.Some?
            && var near := OffTarget(legs[0].delta.value, intent.targetDelta);
               var far := OffTarget(EffectiveDelta(other, m).value, intent.targetDelta);
               && near <= far
               && (near == far && st.monthlyPreference && m.monthly(other.expiry) ==> m.monthly(legs[0].expiry))
  {
    hide *;
    var named := intent.(strategy := Canonical(intent.strategy));
    FunnelIsThePlan(intent, universe, state, holding, st, id, m);
    FirstLegIsChosen(named, universe, state, holding, st, id, m);
    ChosenIsClosest(named, universe, st, m, other);
    GapIsOffTarget(Chosen(named, universe, st, m).value.contract, intent.targetDelta, m);
    GapIsOffTarget(other, intent.targetDelta, m);
  }

  // ---- How far apart the strikes are aimed --------------------------------

  /**
   * A width asked for is taken as it is; otherwise it is so many expected moves of the underlying over
   * the days left, at the vol of the strike nearest spot, and unknown when any part of that is.
   */
  lemma {:induction false} WidthAimedAt(intent: Intent, cs: seq<Contract>, st: Settings, m: Market, dte: int)
    ensures intent.spreadWidth.Some? ==> TargetWidth(intent, cs, st, m, dte) == intent.spreadWidth
    ensures var mult := if intent.strategy == IronButterfly then st.widthMoveMultAtm else st.widthMoveMult;
            intent.spreadWidth.None? ==>
              && (TargetWidth(intent, cs, st, m, dte).None?
                  <==> mult <= 0.0 || m.spot <= 0.0 || dte <= 0 || forall c :: c in cs ==> c.iv.None? || c.iv.value <= 0.0)
              && (TargetWidth(intent, cs, st, m, dte).Some? ==>
                    && AtmVol(cs, m.spot).Some?
                    && TargetWidth(intent, cs, st, m, dte).value == m.spot * AtmVol(cs, m.spot).value.1 * m.rootYears(dte) * mult)
  {
    hide AtmVol;
  }
}
