/** Why the builder says no: every refusal states a fact of the chain, the account or the settings. */
module Refusals {
  import opened Models
  import opened Reals
  import opened Sizing
  import opened Selection
  import opened StrategyBuilder
  import opened PlanRisk
  import opened PlanGuards

  // ---- The liquidity gate, reason by reason -------------------------------

  lemma LiquidityReasons(c: Contract, st: Settings)
    requires st.Valid()
    ensures LiquidityRejection(c, st) == Some(MissingOrZeroQuote) <==> !Priced(c)
    ensures LiquidityRejection(c, st) == Some(WideSpread)
       <==> Priced(c) && Spread(c) > st.maxSpreadAbs && Spread(c) / Mid(c) > st.maxSpreadPct
    ensures LiquidityRejection(c, st) == Some(LowOpenInterest)
       <==> && Priced(c) && (Spread(c) <= st.maxSpreadAbs || Spread(c) / Mid(c) <= st.maxSpreadPct)
            && (c.openInterest.None? || c.openInterest.value < st.minOpenInterest)
    ensures LiquidityRejection(c, st).Some? ==>
              LiquidityRejection(c, st).value in {MissingOrZeroQuote, WideSpread, LowOpenInterest}
  {}

  /** Some contract in the window is refused for exactly that. */
  ghost predicate Illiquid(reason: Reason, universe: seq<Contract>, intent: Intent, st: Settings, m: Market) {
    exists c :: c in universe && InTime(c, intent, m.today) && LiquidityRejection(c, st) == Some(reason)
  }

  // ---- Plans of one option type -------------------------------------------

  /** A contract of the type wanted, in the window. */
  predicate Candidate(c: Contract, intent: Intent, today: int)
    requires IsFunnel(intent.strategy)
  {
    c.optionType == FunnelType(intent.strategy) && InTime(c, intent, today)
  }

  lemma CandidatesAre(intent: Intent, universe: seq<Contract>, today: int)
    requires IsFunnel(intent.strategy)
    ensures forall c :: c in InWindow(OfType(universe, FunnelType(intent.strategy)), intent, today)
                   <==> c in universe && Candidate(c, intent, today)
  {}

  /** What one unit of a debit vertical would cost, before any check of the figure. */
  function Debit(long: Contract, short: Contract, st: Settings): real
    requires Priced(long) && Priced(short)
  {
    Mid(long) - Mid(short) + st.spreadNudgePct * (Spread(long) + Spread(short))
  }

  /** The partner the builder settles on, both legs quoted. */
  predicate Paired(long: Contract, short: Contract, intent: Intent, universe: seq<Contract>, st: Settings, m: Market)
    requires IsVertical(intent.strategy)
  {
    && Chosen(intent, universe, st, m).Some? && Chosen(intent, universe, st, m).value.contract == long
    && long in SameExpiry(intent, universe, long, m)
    && Secondary(intent, SameExpiry(intent, universe, long, m), long, st, m).0 == Some(short)
    && Priced(long) && Priced(short)
  }

  predicate DebitFact(reason: Reason, width: real, debit: real, st: Settings) {
    match reason
    case NetDebitExceedsWidth => debit >= width
    case DebitExceedsWidthPct => debit > st.maxDebitWidthPct * width
    case RewardRiskTooLow => debit != 0.0 && (debit > 0.0 ==> width - debit < st.minRewardRisk * debit)
    case _ => false
  }

  /** The refusal is a fact about the vertical's two legs. */
  ghost predicate VerticalFact(reason: Reason, intent: Intent, universe: seq<Contract>, st: Settings, m: Market)
    requires IsVertical(intent.strategy)
  {
    exists long, short | Paired(long, short, intent, universe, st, m) ::
      if reason == NotADebit then Mid(long) <= Mid(short)
      else DebitFact(reason, Abs(long.strike - short.strike), Debit(long, short, st), st)
  }

  /** No other strike of the expiry lies within one increment of the one aimed at. */
  ghost predicate NothingNear(intent: Intent, sameExpiry: seq<Contract>, long: Contract, st: Settings, m: Market)
    requires IsVertical(intent.strategy)
  {
    var width := TargetWidth(intent, sameExpiry, st, m, long.expiry - m.today);
    && width.Some? && width.value > 0.0
    && forall c :: c in sameExpiry && c.strike != long.strike ==>
         |Ladder(sameExpiry)| >= 2
         && Abs(c.strike - PartnerTarget(intent.strategy, long, width.value)) > MinGap(Ladder(sameExpiry))
  }

  /** The premium a short option would be sold for. */
  function Premium(c: Contract, st: Settings): real
    requires Priced(c)
  {
    Mid(c) - st.spreadNudgePct * Spread(c)
  }

  predicate HoldsShares(holding: Option<Holding>) {
    holding.Some? && holding.value.qty.Some? && holding.value.qty.value >= 100.0 && !holding.value.short
  }

  /** What a refusal of a one-type intent says, in the chain's and the account's own terms. */
  ghost predicate FunnelFact(reason: Reason, intent: Intent, universe: seq<Contract>, state: SizingState,
                             holding: Option<Holding>, st: Settings, m: Market)
    requires st.Valid() && IsFunnel(intent.strategy)
  {
    match reason
    case NoContractsInWindow => forall c :: c in universe ==> !Candidate(c, intent, m.today)
    case NoDeltaDataAvailable =>
      forall c :: c in universe && Candidate(c, intent, m.today) ==> EffectiveDelta(c, m).None?
    case MissingOrZeroQuote => Illiquid(reason, universe, intent, st, m)
    case WideSpread => Illiquid(reason, universe, intent, st, m)
    case LowOpenInterest => Illiquid(reason, universe, intent, st, m)
    case MissingSpreadWidth =>
      && IsVertical(intent.strategy) && Chosen(intent, universe, st, m).Some?
      && var long := Chosen(intent, universe, st, m).value.contract;
         var width := TargetWidth(intent, SameExpiry(intent, universe, long, m), st, m, long.expiry - m.today);
         width.None? || width.value <= 0.0
    case NoStrikeWithinIncrement =>
      && IsVertical(intent.strategy) && Chosen(intent, universe, st, m).Some?
      && var long := Chosen(intent, universe, st, m).value.contract;
         NothingNear(intent, SameExpiry(intent, universe, long, m), long, st, m)
    case NoUnderlyingShares => intent.strategy == CoveredCall && !HoldsShares(holding)
    case UndefinedRisk =>
      && IsShortOnly(intent.strategy)
      && exists c :: c in universe && Candidate(c, intent, m.today) && Priced(c)
           && (if intent.strategy == CoveredCall then m.spot else c.strike) <= Premium(c, st)
    case NotSized(why) => Unsized(why, intent, state, st)
    case _ => IsVertical(intent.strategy) && VerticalFact(reason, intent, universe, st, m)
  }

  /** Sizing settled on no contract at all, for that reason. */
  ghost predicate Unsized(why: Option<Block>, intent: Intent, state: SizingState, st: Settings)
    requires st.Valid()
  {
    exists unit: real, strike: Option<real> | strike.Some? ==> strike.value > 0.0 ::
      && Size(intent.strategy, intent.conviction, unit, state, st, strike).qty == 0
      && Size(intent.strategy, intent.conviction, unit, state, st, strike).blocked == why
  }

  lemma UnsizedFinish(intent: Intent, legs: seq<Leg>, limitPrice: real, p: Profile, state: SizingState,
                      st: Settings, id: nat, strike: Option<real>)
    requires st.Valid() && (strike.Some? ==> strike.value > 0.0)
    requires !Finish(intent, legs, limitPrice, p, state, st, id, strike).Planned?
    ensures var outcome := Finish(intent, legs, limitPrice, p, state, st, id, strike);
            outcome.Refused? && outcome.reason.NotSized? && Unsized(outcome.reason.why, intent, state, st)
  {
    hide Size;
  }

  lemma TooSmallAReward(width: real, debit: real, floor: real)
    requires debit != 0.0 && ((width - debit) * MULTIPLIER) / (debit * MULTIPLIER) < floor
    ensures debit > 0.0 ==> width - debit < floor * debit
  {
    var ratio, x, y := ((width - debit) * MULTIPLIER) / (debit * MULTIPLIER), (width - debit) * MULTIPLIER, debit * MULTIPLIER;
    assert ratio * y == x;
    if debit > 0.0 {
      SignOfProduct(ratio - floor, y);
      assert (ratio - floor) * y == x - floor * y;
    }
  }

  lemma TooLargeAShare(width: real, debit: real, ceiling: real)
    requires width > 0.0 && debit / width > ceiling
    ensures debit > ceiling * width
  {
    var ratio := debit / width;
    assert ratio * width == debit;
    SignOfProduct(ceiling - ratio, width);
    assert (ceiling - ratio) * width == ceiling * width - debit;
  }

  lemma DebitProfileFact(strategy: Strategy, long: Contract, short: Contract, debit: real, spot: real,
                         holding: Option<Holding>, st: Settings)
    requires IsVertical(strategy) && short.strike != long.strike
    ensures var profile := RiskProfile(strategy, long, Some(short), debit, spot, holding, st);
            && (profile.Bad? ==> DebitFact(profile.reason, Abs(long.strike - short.strike), debit, st))
            && (profile.DividesByZero? ==> debit == 0.0)
  {
    var width := Abs(long.strike - short.strike);
    if debit < width {
      if debit / width > st.maxDebitWidthPct {
        TooLargeAShare(width, debit, st.maxDebitWidthPct);
      } else if debit != 0.0 && ((width - debit) * MULTIPLIER) / (debit * MULTIPLIER) < st.minRewardRisk {
        TooSmallAReward(width, debit, st.minRewardRisk);
      }
    }
  }

  lemma VerticalFinishFact(intent: Intent, long: Contract, short: Contract, legs: seq<Leg>, universe: seq<Contract>,
                           state: SizingState, holding: Option<Holding>, st: Settings, id: nat, m: Market)
    requires st.Valid() && IsVertical(intent.strategy) && Paired(long, short, intent, universe, st, m)
    requires Priced(long) && Priced(short) && long.strike > 0.0 && short.strike != long.strike
    ensures var outcome := FinishFunnel(intent, long, Some(short), legs, state, holding, st, id, m);
            && (outcome.Refused? ==> FunnelFact(outcome.reason, intent, universe, state, holding, st, m))
            && (outcome.Raised? ==> Debit(long, short, st) == 0.0)
  {
    hide Finish, Paired, Chosen, SameExpiry, Mid, Spread, RiskProfile, Unsized;
    var debit := Debit(long, short, st);
    DebitProfileFact(intent.strategy, long, short, debit, m.spot, holding, st);
    if Mid(long) > Mid(short) {
      DebitIsEntry(intent.strategy, long, short, st);
      hide EntryPrice, Debit;
      var profile := RiskProfile(intent.strategy, long, Some(short), debit, m.spot, holding, st);
      if profile.Assessed? && !Finish(intent, legs, debit, profile.p, state, st, id, Some(long.strike)).Planned? {
        UnsizedFinish(intent, legs, debit, profile.p, state, st, id, Some(long.strike));
      }
    }
  }

  lemma DebitIsEntry(strategy: Strategy, long: Contract, short: Contract, st: Settings)
    requires Priced(long) && Priced(short) && Mid(long) > Mid(short)
    ensures EntryPrice(strategy, long, Some(short), st) == Some(Debit(long, short, st))
  {
    assert EntryPrice(strategy, long, Some(short), st).value == Debit(long, short, st);
  }

  lemma LoneFinishFact(intent: Intent, c: Contract, legs: seq<Leg>, universe: seq<Contract>, state: SizingState,
                       holding: Option<Holding>, st: Settings, id: nat, m: Market)
    requires st.Valid() && IsFunnel(intent.strategy) && !IsVertical(intent.strategy)
    requires c in universe && Candidate(c, intent, m.today) && Priced(c) && c.strike > 0.0
    ensures var outcome := FinishFunnel(intent, c, None, legs, state, holding, st, id, m);
            && !outcome.Raised?
            && (outcome.Refused? ==> FunnelFact(outcome.reason, intent, universe, state, holding, st, m))
  {
    hide Finish, Candidate, Illiquid, VerticalFact;
    var entry := EntryPrice(intent.strategy, c, None, st).value;
    var profile := RiskProfile(intent.strategy, c, None, entry, m.spot, holding, st);
    if profile.Assessed? && !Finish(intent, legs, entry, profile.p, state, st, id, Some(c.strike)).Planned? {
      UnsizedFinish(intent, legs, entry, profile.p, state, st, id, Some(c.strike));
    }
  }

  /** A leg the builder chose has fields no leg may carry, or a debit is exactly nothing. */
  ghost predicate FunnelRaises(intent: Intent, universe: seq<Contract>, st: Settings, m: Market)
    requires IsFunnel(intent.strategy)
  {
    || (exists c :: c in universe && Candidate(c, intent, m.today) && !LegFields(c, EffectiveDelta(c, m)))
    || (IsVertical(intent.strategy)
        && exists long, short | Paired(long, short, intent, universe, st, m) :: Debit(long, short, st) == 0.0)
  }

  lemma LoneFunnelFact(intent: Intent, universe: seq<Contract>, state: SizingState, holding: Option<Holding>,
                       st: Settings, id: nat, m: Market)
    requires st.Valid() && IsFunnel(intent.strategy) && !IsVertical(intent.strategy)
    ensures var outcome := FunnelPlan(intent, universe, state, holding, st, id, m);
            && (outcome.Refused? ==> FunnelFact(outcome.reason, intent, universe, state, holding, st, m))
            && (outcome.Raised? ==> FunnelRaises(intent, universe, st, m))
  {
    hide FinishFunnel, Primary, LiquidityRejection, LegFields, Secondary, InWindow, OfType, Unsized, VerticalFact;
    CandidatesAre(intent, universe, m.today);
    var t := FunnelType(intent.strategy);
    var candidates := InWindow(OfType(universe, t), intent, m.today);
    var pick := Primary(candidates, t, intent, st, m);
    if candidates == [] {
      assert forall c :: c in universe ==> !(c in candidates);
    } else if pick.None? {
      assert forall c :: c in candidates ==> !Eligible(c, t, m);
    } else {
      var c, delta := pick.value.contract, Some(pick.value.delta);
      if LiquidityRejection(c, st).Some? {
        LiquidityReasons(c, st);
      } else if LegFields(c, delta) {
        LegHasStrike(c, delta);
        LoneFinishFact(intent, c, [MakeLeg(c, if IsShortOnly(intent.strategy) then Sell else Buy, delta)],
                       universe, state, holding, st, id, m);
      }
    }
  }

  lemma LegHasStrike(c: Contract, delta: Option<real>)
    requires LegFields(c, delta)
    ensures c.strike > 0.0
  {}

  lemma NoPartnerFact(intent: Intent, sameExpiry: seq<Contract>, long: Contract, st: Settings, m: Market)
    requires IsVertical(intent.strategy) && long in sameExpiry
    requires Secondary(intent, sameExpiry, long, st, m).0.None?
    ensures var width := TargetWidth(intent, sameExpiry, st, m, long.expiry - m.today);
            && (Secondary(intent, sameExpiry, long, st, m).1 == MissingSpreadWidth ==> width.None? || width.value <= 0.0)
            && (Secondary(intent, sameExpiry, long, st, m).1 != MissingSpreadWidth ==>
                  && Secondary(intent, sameExpiry, long, st, m).1 == NoStrikeWithinIncrement
                  && NothingNear(intent, sameExpiry, long, st, m))
  {
    hide TargetWidth, Ladder, MinGap;
    var width := TargetWidth(intent, sameExpiry, st, m, long.expiry - m.today);
    if width.Some? && width.value > 0.0 {
      var target := PartnerTarget(intent.strategy, long, width.value);
      var others := Ladder(Filter(sameExpiry, (c: Contract) => c.strike != long.strike));
      if others != [] {
        LadderHasGap(sameExpiry, long, others);
        forall c | c in sameExpiry && c.strike != long.strike ensures Abs(c.strike - target) > MinGap(Ladder(sameExpiry)) {
          assert c.strike in others;
          var i :| 0 <= i < |others| && others[i] == c.strike;
        }
      } else {
        forall c | c in sameExpiry ensures c.strike == long.strike { assert c.strike != long.strike ==> c.strike in others; }
      }
    }
  }

  /** From the partner on: the primary is liquid and has valid fields. */
  lemma PartnerFact(intent: Intent, universe: seq<Contract>, state: SizingState, holding: Option<Holding>,
                    st: Settings, id: nat, m: Market)
    requires st.Valid() && IsVertical(intent.strategy) && Chosen(intent, universe, st, m).Some?
    requires var pick := Chosen(intent, universe, st, m).value;
             && LiquidityRejection(pick.contract, st).None? && pick.contract.strike > 0.0
             && pick.contract in SameExpiry(intent, universe, pick.contract, m)
    ensures var pick := Chosen(intent, universe, st, m).value;
            var c, delta := pick.contract, Some(pick.delta);
            var (partner, reason) := Secondary(intent, SameExpiry(intent, universe, c, m), c, st, m);
            && (partner.None? ==> FunnelFact(reason, intent, universe, state, holding, st, m))
            && (partner.Some? ==>
                  var short := partner.value;
                  && short.strike != c.strike && short in universe && Candidate(short, intent, m.today)
                  && (LiquidityRejection(short, st).Some? ==>
                        FunnelFact(LiquidityRejection(short, st).value, intent, universe, state, holding, st, m))
                  && (LiquidityRejection(short, st).None? ==>
                        var legs := [MakeLeg(c, Buy, delta), MakeLeg(short, Sell, EffectiveDelta(short, m))];
                        var outcome := FinishFunnel(intent, c, Some(short), legs, state, holding, st, id, m);
                        && (outcome.Refused? ==> FunnelFact(outcome.reason, intent, universe, state, holding, st, m))
                        && (outcome.Raised? ==> FunnelRaises(intent, universe, st, m))))
  {
    hide FinishFunnel, Chosen, SameExpiry, LiquidityRejection, LegFields, Secondary, Unsized, VerticalFact, NothingNear, Debit,
      TargetWidth, EffectiveDelta;
    var pick := Chosen(intent, universe, st, m).value;
    var c, sameExpiry := pick.contract, SameExpiry(intent, universe, pick.contract, m);
    ChosenIsInTime(intent, universe, st, m);
    var partner := Secondary(intent, sameExpiry, c, st, m).0;
    if partner.None? {
      NoPartnerFact(intent, sameExpiry, c, st, m);
    } else if LiquidityRejection(partner.value, st).Some? {
      LiquidityReasons(partner.value, st);
    } else {
      assert Paired(c, partner.value, intent, universe, st, m);
      VerticalFinishFact(intent, c, partner.value,
                         [MakeLeg(c, Buy, Some(pick.delta)), MakeLeg(partner.value, Sell, EffectiveDelta(partner.value, m))],
                         universe, state, holding, st, id, m);
    }
  }

  lemma VerticalFunnelFact(intent: Intent, universe: seq<Contract>, state: SizingState, holding: Option<Holding>,
                           st: Settings, id: nat, m: Market)
    requires st.Valid() && IsVertical(intent.strategy)
    ensures var outcome := FunnelPlan(intent, universe, state, holding, st, id, m);
            && (outcome.Refused? ==> FunnelFact(outcome.reason, intent, universe, state, holding, st, m))
            && (outcome.Raised? ==> FunnelRaises(intent, universe, st, m))
  {
    hide FinishFunnel, Primary, LiquidityRejection, LegFields, Secondary, InWindow, OfType, Unsized, VerticalFact,
      NothingNear, Debit, Paired;
    CandidatesAre(intent, universe, m.today);
    var t := FunnelType(intent.strategy);
    var candidates := InWindow(OfType(universe, t), intent, m.today);
    var pick := Primary(candidates, t, intent, st, m);
    if candidates == [] {
      assert forall c :: c in universe ==> !(c in candidates);
    } else if pick.None? {
      assert forall c :: c in candidates ==> !Eligible(c, t, m);
    } else {
      var c := pick.value.contract;
      if LiquidityRejection(c, st).Some? {
        LiquidityReasons(c, st);
      } else if LegFields(c, Some(pick.value.delta)) {
        LegHasStrike(c, Some(pick.value.delta));
        PartnerFact(intent, universe, state, holding, st, id, m);
      }
    }
  }

  // ---- Strangles ----------------------------------------------------------

  /** On this expiry a call and a put can be had at their closest deltas, strikes apart. */
  predicate StranglePair(intent: Intent, sameExpiry: seq<Contract>, m: Market) {
    var call, put := Closest(sameExpiry, Call, intent.targetDelta, m), Closest(sameExpiry, Put, intent.targetDelta, m);
    call.Some? && put.Some? && put.value.contract.strike < call.value.contract.strike
  }

  ghost predicate StrangleFact(reason: Reason, intent: Intent, universe: seq<Contract>, state: SizingState,
                               st: Settings, m: Market)
    requires st.Valid()
  {
    match reason
    case NoContractsInWindow => forall c :: c in universe ==> !InTime(c, intent, m.today)
    case NoStranglePairAvailable =>
      forall e :: e in Expiries(InWindow(universe, intent, m.today)) ==>
        !StranglePair(intent, OfExpiry(InWindow(universe, intent, m.today), e), m)
    case MissingOrZeroQuote => Illiquid(reason, universe, intent, st, m)
    case WideSpread => Illiquid(reason, universe, intent, st, m)
    case LowOpenInterest => Illiquid(reason, universe, intent, st, m)
    case NotSized(why) => Unsized(why, intent, state, st)
    case _ => false
  }

  lemma OfferIsPair(intent: Intent, inWindow: seq<Contract>, st: Settings, m: Market, e: int)
    ensures StrangleOffer(intent, inWindow, st, m)(e).Some? <==> StranglePair(intent, OfExpiry(inWindow, e), m)
  {
    hide Closest, OfExpiry, Penalty;
  }

  lemma {:induction false} NotFirst(cs: seq<Contract>, st: Settings)
    requires FirstRejection(cs, st).Some?
    ensures exists c :: c in cs && LiquidityRejection(c, st) == FirstRejection(cs, st)
  {
    hide LiquidityRejection;
    if LiquidityRejection(cs[0], st).Some? {
      assert cs[0] in cs;
    } else {
      NotFirst(cs[1..], st);
    }
  }

  lemma StrangleFinishFact(intent: Intent, call: Pick, put: Pick, universe: seq<Contract>, state: SizingState,
                           st: Settings, id: nat, m: Market)
    requires st.Valid() && call.contract in universe && put.contract in universe
    requires InTime(call.contract, intent, m.today) && InTime(put.contract, intent, m.today)
    requires EffectiveDelta(call.contract, m) == Some(call.delta) && EffectiveDelta(put.contract, m) == Some(put.delta)
    ensures var outcome := FinishStrangle(intent, call, put, state, st, id);
            && (outcome.Refused? ==> StrangleFact(outcome.reason, intent, universe, state, st, m))
            && (outcome.Raised? ==> AnyFieldsFail(intent, universe, m))
  {
    hide Finish, LiquidityRejection, LegFields, StrangleEntry, Unsized;
    var c, p := call.contract, put.contract;
    assert c in [c, p] && p in [c, p];
    if FirstRejection([c, p], st).Some? {
      NotFirst([c, p], st);
      LiquidityReasons(c, st);
      LiquidityReasons(p, st);
    } else {
      var entry := StrangleEntry(c, p, st);
      var legs := [MakeLeg(c, Buy, Some(call.delta)), MakeLeg(p, Buy, Some(put.delta))];
      var profile := Profile(entry * MULTIPLIER, None, None);
      if !Finish(intent, legs, entry, profile, state, st, id, None).Planned? {
        UnsizedFinish(intent, legs, entry, profile, state, st, id, None);
      }
    }
  }

  /** Some contract of the window has fields no leg may carry. */
  ghost predicate AnyFieldsFail(intent: Intent, universe: seq<Contract>, m: Market) {
    exists c :: c in universe && InTime(c, intent, m.today) && !LegFields(c, EffectiveDelta(c, m))
  }

  lemma StrangleRefusal(intent: Intent, universe: seq<Contract>, state: SizingState, st: Settings, id: nat, m: Market)
    requires st.Valid()
    ensures var outcome := StranglePlan(intent, universe, state, st, id, m);
            && (outcome.Refused? ==> StrangleFact(outcome.reason, intent, universe, state, st, m))
            && (outcome.Raised? ==> AnyFieldsFail(intent, universe, m))
  {
    hide FinishStrangle, Best, StrangleOffer, InWindow, StranglePair, Illiquid, Unsized, LegFields;
    var inWindow := InWindow(universe, intent, m.today);
    InWindowIs(universe, intent, m.today);
    var offer := StrangleOffer(intent, inWindow, st, m);
    var best := Best(Expiries(inWindow), offer);
    if inWindow == [] {
      assert forall c :: c in universe ==> c !in inWindow;
    } else if best.None? {
      forall e | e in Expiries(inWindow) ensures !StranglePair(intent, OfExpiry(inWindow, e), m) {
        OfferIsPair(intent, inWindow, st, m, e);
      }
    } else {
      var call, put := BestStrangle(intent, inWindow, st, m);
      StrangleDeltas(intent, inWindow, st, m);
      StrangleFinishFact(intent, call, put, universe, state, st, id, m);
    }
  }

  // ---- Credit structures --------------------------------------------------

  /** Every wing candidate on the far side of the short lies more than one increment from where it is wanted. */
  ghost predicate NoWing(cs: seq<Contract>, t: OptionType, short: Contract, width: real, increment: real) {
    forall c :: c in cs && c.optionType == t && (if t == Put then c.strike < short.strike else short.strike < c.strike) ==>
      Abs(c.strike - (if t == Put then short.strike - width else short.strike + width)) > increment
  }

  /** No short can be placed: none of the type has a delta, or none stands at the strike it must. */
  ghost predicate NoAnchor(cs: seq<Contract>, t: OptionType, m: Market, pinned: Option<real>) {
    forall c :: c in cs && c.optionType == t ==>
      if pinned.Some? then c.strike != pinned.value else EffectiveDelta(c, m).None?
  }

  lemma AnchorNoneIff(cs: seq<Contract>, t: OptionType, target: real, m: Market, pinned: Option<real>)
    ensures Anchor(OfType(cs, t), t, target, m, pinned).None? <==> NoAnchor(cs, t, m, pinned)
    ensures Anchor(OfType(cs, t), t, target, m, pinned).Some? && pinned.None? ==>
              var (short, score) := Anchor(OfType(cs, t), t, target, m, pinned).value;
              && EffectiveDelta(short, m).Some? && score == DeltaGap(short, target, m)
              && forall c :: c in cs && c.optionType == t && EffectiveDelta(c, m).Some? ==> score <= DeltaGap(c, target, m)
    ensures Anchor(OfType(cs, t), t, target, m, pinned).Some? && pinned.Some? && m.spot > 0.0 ==>
              Anchor(OfType(cs, t), t, target, m, pinned).value.1 * m.spot == Abs(pinned.value - m.spot)
    ensures Anchor(OfType(cs, t), t, target, m, pinned).Some? && pinned.Some? && m.spot <= 0.0 ==>
              Anchor(OfType(cs, t), t, target, m, pinned).value.1 == 0.0
  {
    var side := OfType(cs, t);
    if pinned.Some? {
      var anchored := AtStrike(side, pinned.value);
      if anchored != [] {
        assert anchored[0] in anchored;
        if m.spot > 0.0 { assert Abs(pinned.value - m.spot) / m.spot * m.spot == Abs(pinned.value - m.spot); }
      } else {
        forall c | c in side ensures c.strike != pinned.value { assert c in anchored <==> c.strike == pinned.value; }
      }
    } else {
      forall c | c in side ensures Eligible(c, t, m) <==> EffectiveDelta(c, m).Some? { }
    }
  }

  lemma WingSideIs(cs: seq<Contract>, t: OptionType, strike: real)
    ensures forall c :: c in WingSide(OfType(cs, t), t, strike)
                   <==> c in cs && c.optionType == t && (if t == Put then c.strike < strike else strike < c.strike)
  {}

  /** A vertical cannot be assembled exactly when no short can be placed or no wing is near enough to protect it. */
  lemma CreditVerticalNoneIff(cs: seq<Contract>, t: OptionType, target: real, width: real, increment: real,
                              m: Market, pinned: Option<real>)
    ensures CreditVertical(cs, t, target, width, increment, m, pinned).None?
       <==> || NoAnchor(cs, t, m, pinned)
            || NoWing(cs, t, Anchor(OfType(cs, t), t, target, m, pinned).value.0, width, increment)
  {
    hide Anchor, NearestListed, WingSide, OfType, NoAnchor;
    AnchorNoneIff(cs, t, target, m, pinned);
    var anchor := Anchor(OfType(cs, t), t, target, m, pinned);
    if anchor.Some? { WingSideIs(cs, t, anchor.value.0.strike); }
  }

  /** Listed both as a call and as a put. */
  ghost predicate ListedTwice(cs: seq<Contract>, y: real) {
    (exists c :: c in cs && c.optionType == Call && c.strike == y) && (exists p :: p in cs && p.optionType == Put && p.strike == y)
  }

  /** The strikes an iron butterfly may sit on. */
  lemma SharedLadderIs(cs: seq<Contract>, y: real)
    ensures y in SharedLadder(cs) <==> ListedTwice(cs, y)
  {
    hide Ladder, Filter;
    var calls, puts := OfType(cs, Call), OfType(cs, Put);
    var kept := Filter(calls, (c: Contract) => exists p :: p in OfType(cs, Put) && p.strike == c.strike);
    assert y in SharedLadder(cs) <==> exists c :: c in kept && c.strike == y;
    if ListedTwice(cs, y) {
      var c :| c in cs && c.optionType == Call && c.strike == y;
      var p :| p in cs && p.optionType == Put && p.strike == y;
      assert p in puts && c in calls && c in kept;
    }
  }

  /** The strike both shorts of an iron butterfly sit on. */
  function Pin(intent: Intent, cs: seq<Contract>, m: Market): Option<real> {
    var shared := SharedLadder(cs);
    if intent.strategy != IronButterfly || shared == [] then None else Some(shared[Nearest(shared, m.spot)])
  }

  /** It is a shared one, and none of those is nearer spot. */
  lemma PinIs(intent: Intent, cs: seq<Contract>, m: Market)
    ensures Pin(intent, cs, m).Some? ==> Pin(intent, cs, m).value in SharedLadder(cs)
    ensures Pin(intent, cs, m).Some? ==>
              forall y :: y in SharedLadder(cs) ==> Abs(Pin(intent, cs, m).value - m.spot) <= Abs(y - m.spot)
    ensures Pin(intent, cs, m).Some? <==> intent.strategy == IronButterfly && SharedLadder(cs) != []
  {
    hide SharedLadder, Nearest;
    var shared := SharedLadder(cs);
    if shared != [] {
      forall y | y in shared ensures Abs(shared[Nearest(shared, m.spot)] - m.spot) <= Abs(y - m.spot) {
        var i :| 0 <= i < |shared| && shared[i] == y;
      }
    }
  }

  predicate NeedsPut(s: Strategy) { s != CallCreditSpread }

  predicate NeedsCall(s: Strategy) { s != PutCreditSpread }

  /** One side of a credit structure on one expiry. */
  function SideOf(intent: Intent, cs: seq<Contract>, t: OptionType, width: real, m: Market): Option<Vertical>
    requires |Ladder(cs)| >= 2
  {
    CreditVertical(cs, t, intent.targetDelta, width, MinGap(Ladder(cs)), m, Pin(intent, cs, m))
  }

  /** Nothing complete can be put together on this expiry. */
  ghost predicate NoStructure(intent: Intent, cs: seq<Contract>, st: Settings, m: Market, dte: int) {
    var width := TargetWidth(intent, cs, st, m, dte);
    || |Ladder(cs)| < 2
    || width.None? || width.value <= 0.0
    || (intent.strategy == IronButterfly && SharedLadder(cs) == [])
    || (NeedsPut(intent.strategy) && SideOf(intent, cs, Put, width.value, m).None?)
    || (NeedsCall(intent.strategy) && SideOf(intent, cs, Call, width.value, m).None?)
    || (intent.strategy == IronCondor
        && SideOf(intent, cs, Put, width.value, m).value.short.strike >= SideOf(intent, cs, Call, width.value, m).value.short.strike)
  }

  lemma AssembleNoneIff(intent: Intent, cs: seq<Contract>, st: Settings, m: Market, dte: int)
    requires IsCredit(intent.strategy)
    ensures AssembleVerticals(intent, cs, st, m, dte).None? <==> NoStructure(intent, cs, st, m, dte)
  {
    hide CreditVertical, TargetWidth, Ladder, MinGap, SharedLadder, Nearest;
  }

  /** An expiry's score: how far its shorts are from where they are wanted, and a sliver off standard monthlies. */
  lemma CreditOfferScore(intent: Intent, inWindow: seq<Contract>, st: Settings, m: Market, e: int)
    requires IsCredit(intent.strategy) && CreditOffer(intent, inWindow, st, m)(e).Some?
    ensures var (score, vs) := CreditOffer(intent, inWindow, st, m)(e).value;
            && (|vs| == 1 || |vs| == 2)
            && score == vs[0].score + (if |vs| == 2 then vs[1].score else 0.0)
                        + (if st.monthlyPreference && !m.monthly(e) then 0.000001 else 0.0)
  {
    hide AssembleVerticals, OfExpiry;
    var vs := CreditOffer(intent, inWindow, st, m)(e).value.1;
    TotalOf(vs);
  }

  lemma {:induction false} TotalOf(vs: seq<Vertical>)
    ensures |vs| == 1 ==> TotalScore(vs) == vs[0].score
    ensures |vs| == 2 ==> TotalScore(vs) == vs[0].score + vs[1].score
  {
    if |vs| == 1 || |vs| == 2 {
      var one := vs[..1];
      assert one[..0] == [] && one[0] == vs[0];
      assert TotalScore(one) == vs[0].score;
    }
    if |vs| == 1 { assert vs[..1] == vs; }
  }

  lemma StrangleOfferScore(intent: Intent, inWindow: seq<Contract>, st: Settings, m: Market, e: int)
    requires StrangleOffer(intent, inWindow, st, m)(e).Some?
    ensures var (score, pair) := StrangleOffer(intent, inWindow, st, m)(e).value;
            var (call, put) := pair;
            && EffectiveDelta(call.contract, m).Some? && EffectiveDelta(put.contract, m).Some?
            && score == DeltaGap(call.contract, intent.targetDelta, m) + DeltaGap(put.contract, intent.targetDelta, m)
                        + (if st.monthlyPreference && !m.monthly(e) then 0.000001 else 0.0)
  {
    hide Closest, OfExpiry;
  }

  predicate CreditFigure(reason: Reason, credit: real, width: real, st: Settings) {
    match reason
    case NotACredit => credit <= 0.0
    case CreditExceedsWidth => credit >= width
    case ThinCredit => credit < st.minCreditWidthPct * width
    case CreditTooRich => credit > st.maxCreditWidthPct * width
    case _ => false
  }

  ghost predicate CreditFact(reason: Reason, intent: Intent, universe: seq<Contract>, state: SizingState,
                             st: Settings, m: Market)
    requires st.Valid() && IsCredit(intent.strategy)
  {
    match reason
    case MissingSpreadWidth => intent.spreadWidth.None? && MoveMult(intent.strategy, st) <= 0.0
    case NoContractsInWindow => forall c :: c in universe ==> !InTime(c, intent, m.today)
    case NoCreditStructureAvailable =>
      var inWindow := InWindow(universe, intent, m.today);
      forall e :: e in Expiries(inWindow) ==> NoStructure(intent, OfExpiry(inWindow, e), st, m, e - m.today)
    case MissingOrZeroQuote => Illiquid(reason, universe, intent, st, m)
    case WideSpread => Illiquid(reason, universe, intent, st, m)
    case LowOpenInterest => Illiquid(reason, universe, intent, st, m)
    case NotSized(why) => Unsized(why, intent, state, st)
    case _ => BestFigure(reason, intent, universe, st, m)
  }

  /** The credit of the best structure, against the width it risks. */
  ghost predicate BestFigure(reason: Reason, intent: Intent, universe: seq<Contract>, st: Settings, m: Market)
    requires IsCredit(intent.strategy)
  {
    var inWindow := InWindow(universe, intent, m.today);
    var best := Best(Expiries(inWindow), CreditOffer(intent, inWindow, st, m));
    && best.Some? && best.value.1 != [] && AllPriced(best.value.1)
    && CreditFigure(reason, Credit(best.value.1, st), WidestWing(best.value.1), st)
  }

  lemma FigureReason(reason: Reason, credit: real, width: real, st: Settings)
    requires CreditFigure(reason, credit, width, st)
    ensures reason in {NotACredit, CreditExceedsWidth, ThinCredit, CreditTooRich}
  {}

  lemma FiguresAre(credit: real, width: real, st: Settings)
    requires width > 0.0
    ensures credit <= 0.0 ==> CreditFigure(NotACredit, credit, width, st)
    ensures credit >= width ==> CreditFigure(CreditExceedsWidth, credit, width, st)
    ensures credit / width < st.minCreditWidthPct ==> CreditFigure(ThinCredit, credit, width, st)
    ensures credit / width > st.maxCreditWidthPct ==> CreditFigure(CreditTooRich, credit, width, st)
  {
    if credit / width < st.minCreditWidthPct { TooSmallAShare(width, credit, st.minCreditWidthPct); }
    if credit / width > st.maxCreditWidthPct { TooLargeAShare(width, credit, st.maxCreditWidthPct); }
  }

  lemma TooSmallAShare(width: real, credit: real, floor: real)
    requires width > 0.0 && credit / width < floor
    ensures credit < floor * width
  {
    var ratio := credit / width;
    assert ratio * width == credit;
    SignOfProduct(ratio - floor, width);
    assert (ratio - floor) * width == credit - floor * width;
  }

  lemma {:induction false} CreditFinishFact(intent: Intent, vs: seq<Vertical>, credit: real, state: SizingState,
                                        st: Settings, id: nat)
    requires st.Valid() && IsCredit(intent.strategy) && vs != [] && WidestWing(vs) > 0.0
    ensures var outcome := FinishCredit(intent, vs, credit, state, st, id);
            && (outcome.Refused? ==>
                  if outcome.reason.NotSized? then Unsized(outcome.reason.why, intent, state, st)
                  else CreditFigure(outcome.reason, credit, WidestWing(vs), st))
            && (outcome.Raised? ==>
                  exists v :: v in vs && !(LegFields(v.short, v.shortDelta) && LegFields(v.long, v.longDelta)))
  {
    hide Finish, WidestWing, LegFields, CreditLegs, CreditBreakeven, Unsized, CreditFigure;
    var width := WidestWing(vs);
    FiguresAre(credit, width, st);
    var p := Profile((width - credit) * MULTIPLIER, Some(credit * MULTIPLIER),
                     CreditBreakeven(intent.strategy, vs[0].short.strike, credit));
    if !Finish(intent, CreditLegs(vs), -credit, p, state, st, id, None).Planned? {
      UnsizedFinish(intent, CreditLegs(vs), -credit, p, state, st, id, None);
    }
  }

  lemma {:induction false} ContractsAre(vs: seq<Vertical>)
    ensures forall c :: c in Contracts(vs) ==> exists v :: v in vs && (c == v.short || c == v.long)
  {
    if vs != [] {
      ContractsAre(vs[1..]);
      forall c | c in Contracts(vs) ensures exists v :: v in vs && (c == v.short || c == v.long) {
        if c == vs[0].short || c == vs[0].long {
          assert vs[0] in vs;
        } else {
          assert c in Contracts(vs[1..]);
          var v :| v in vs[1..] && (c == v.short || c == v.long);
          assert v in vs;
        }
      }
    }
  }

  /** Every contract of an assembled structure is in the window. */
  lemma VerticalsInTime(intent: Intent, vs: seq<Vertical>, universe: seq<Contract>, expiry: int, today: int)
    requires Assembled(intent.strategy, vs, OfExpiry(InWindow(universe, intent, today), expiry))
    ensures forall v :: v in vs ==>
              && v.short in universe && InTime(v.short, intent, today)
              && v.long in universe && InTime(v.long, intent, today)
  {
    forall v | v in vs ensures v.short in universe && InTime(v.short, intent, today) && v.long in universe && InTime(v.long, intent, today) {
      assert v == vs[0] || v == vs[1];
    }
  }

  lemma CreditRefusal(intent: Intent, universe: seq<Contract>, state: SizingState, st: Settings, id: nat, m: Market)
    requires st.Valid() && IsCredit(intent.strategy)
    ensures var outcome := CreditPlan(intent, universe, state, st, id, m);
            && (outcome.Refused? ==> CreditFact(outcome.reason, intent, universe, state, st, m))
            && (outcome.Raised? ==> AnyFieldsFail(intent, universe, m))
  {
    hide FinishCredit, Best, CreditOffer, InWindow, NoStructure, Illiquid, Unsized, LegFields, FirstRejection, Contracts,
      Credit, WidestWing, Assembled, OwnDeltas, CreditFigure, AllPriced, LiquidityRejection, OfExpiry;
    var inWindow := InWindow(universe, intent, m.today);
    InWindowIs(universe, intent, m.today);
    var best := Best(Expiries(inWindow), CreditOffer(intent, inWindow, st, m));
    if inWindow == [] {
      assert forall c :: c in universe ==> c !in inWindow;
    } else if best.None? {
      forall e | e in Expiries(inWindow) ensures NoStructure(intent, OfExpiry(inWindow, e), st, m, e - m.today) {
        NoOffer(intent, inWindow, st, m, e);
      }
    } else {
      var vs := best.value.1;
      var expiry := BestCreditIsAssembled(intent, inWindow, st, m);
      BestCreditFacts(intent, inWindow, st, m);
      BestCreditDeltas(intent, inWindow, st, m);
      VerticalsInTime(intent, vs, universe, expiry, m.today);
      if FirstRejection(Contracts(vs), st).Some? {
        IlliquidVertical(vs, intent, universe, st, m);
      } else {
        var outcome := FinishCredit(intent, vs, Credit(vs, st), state, st, id);
        CreditFinishFact(intent, vs, Credit(vs, st), state, st, id);
        if outcome.Refused? && !outcome.reason.NotSized? {
          FigureReason(outcome.reason, Credit(vs, st), WidestWing(vs), st);
        }
        BadVertical(vs, intent, universe, m);
      }
    }
  }

  lemma NoOffer(intent: Intent, inWindow: seq<Contract>, st: Settings, m: Market, e: int)
    requires IsCredit(intent.strategy) && CreditOffer(intent, inWindow, st, m)(e).None?
    ensures NoStructure(intent, OfExpiry(inWindow, e), st, m, e - m.today)
  {
    hide AssembleVerticals, NoStructure, OfExpiry;
    AssembleNoneIff(intent, OfExpiry(inWindow, e), st, m, e - m.today);
  }

  lemma {:induction false} IlliquidVertical(vs: seq<Vertical>, intent: Intent, universe: seq<Contract>, st: Settings,
                                        m: Market)
    requires st.Valid() && FirstRejection(Contracts(vs), st).Some?
    requires forall v :: v in vs ==>
               && v.short in universe && InTime(v.short, intent, m.today)
               && v.long in universe && InTime(v.long, intent, m.today)
    ensures var reason := FirstRejection(Contracts(vs), st).value;
            reason in {MissingOrZeroQuote, WideSpread, LowOpenInterest} && Illiquid(reason, universe, intent, st, m)
  {
    hide LiquidityRejection, FirstRejection, Contracts, InTime;
    NotFirst(Contracts(vs), st);
    ContractsAre(vs);
    var c :| c in Contracts(vs) && LiquidityRejection(c, st) == FirstRejection(Contracts(vs), st);
    LiquidityReasons(c, st);
  }

  lemma BadVertical(vs: seq<Vertical>, intent: Intent, universe: seq<Contract>, m: Market)
    requires OwnDeltas(vs, m)
    requires forall v :: v in vs ==>
               && v.short in universe && InTime(v.short, intent, m.today)
               && v.long in universe && InTime(v.long, intent, m.today)
    ensures (exists v :: v in vs && !(LegFields(v.short, v.shortDelta) && LegFields(v.long, v.longDelta))) ==>
              AnyFieldsFail(intent, universe, m)
  {
    hide LegFields, InTime;
  }

  // ---- Every refusal ------------------------------------------------------

  /**
   * When the builder refuses, its reason is true of the chain, the account and the settings; when it
   * raises, some contract of the window has fields no leg may carry, or a debit is exactly nothing.
   */
  lemma RefusalIsTrue(intent: Intent, universe: seq<Contract>, state: SizingState, holding: Option<Holding>,
                      st: Settings, id: nat, m: Market)
    requires st.Valid()
    ensures var outcome := PlanFor(intent, universe, state, holding, st, id, m);
            var named := intent.(strategy := Canonical(intent.strategy));
            && (outcome.Refused? ==>
                  if !Supported(named.strategy) then outcome.reason == UnsupportedStrategy
                  else if named.strategy == LongStrangle then StrangleFact(outcome.reason, named, universe, state, st, m)
                  else if IsCredit(named.strategy) then CreditFact(outcome.reason, named, universe, state, st, m)
                  else FunnelFact(outcome.reason, named, universe, state, holding, st, m))
            && (outcome.Raised? ==>
                  || AnyFieldsFail(named, universe, m)
                  || (IsFunnel(named.strategy) && FunnelRaises(named, universe, st, m)))
  {
    hide StranglePlan, CreditPlan, FunnelPlan, StrangleFact, CreditFact, FunnelFact, AnyFieldsFail, FunnelRaises;
    var named := intent.(strategy := Canonical(intent.strategy));
    if named.strategy == LongStrangle {
      StrangleRefusal(named, universe, state, st, id, m);
    } else if IsCredit(named.strategy) {
      CreditRefusal(named, universe, state, st, id, m);
    } else if IsVertical(named.strategy) {
      VerticalFunnelFact(named, universe, state, holding, st, id, m);
    } else if IsFunnel(named.strategy) {
      LoneFunnelFact(named, universe, state, holding, st, id, m);
    }
  }

  // ---- Exactly when nothing can be built ----------------------------------

  predicate NothingInTime(intent: Intent, universe: seq<Contract>, today: int) {
    forall c :: c in universe ==> !InTime(c, intent, today)
  }

  /** A width that is neither given nor a multiple of the expected move. */
  predicate NoWidth(intent: Intent, st: Settings) {
    intent.spreadWidth.None? && (if intent.strategy == IronButterfly then st.widthMoveMultAtm else st.widthMoveMult) <= 0.0
  }

  ghost predicate NoCompleteExpiry(intent: Intent, universe: seq<Contract>, st: Settings, m: Market) {
    var inWindow := InWindow(universe, intent, m.today);
    forall e :: e in Expiries(inWindow) ==> NoStructure(intent, OfExpiry(inWindow, e), st, m, e - m.today)
  }

  lemma NoCompleteOffer(intent: Intent, universe: seq<Contract>, st: Settings, m: Market)
    requires IsCredit(intent.strategy)
    ensures var inWindow := InWindow(universe, intent, m.today);
            Best(Expiries(inWindow), CreditOffer(intent, inWindow, st, m)).None? <==> NoCompleteExpiry(intent, universe, st, m)
  {
    hide NoStructure, InWindow, Expiries, OfExpiry, AssembleVerticals, Best;
    var inWindow := InWindow(universe, intent, m.today);
    forall e | e in Expiries(inWindow)
      ensures CreditOffer(intent, inWindow, st, m)(e).None? <==> NoStructure(intent, OfExpiry(inWindow, e), st, m, e - m.today)
    {
      AssembleNoneIff(intent, OfExpiry(inWindow, e), st, m, e - m.today);
    }
  }

  lemma EmptyWindowIff(intent: Intent, universe: seq<Contract>, m: Market)
    ensures InWindow(universe, intent, m.today) == [] <==> NothingInTime(intent, universe, m.today)
  {
    InWindowIs(universe, intent, m.today);
    var inWindow := InWindow(universe, intent, m.today);
    if inWindow != [] { assert inWindow[0] in inWindow; }
  }

  lemma CreditStopsEarly(intent: Intent, universe: seq<Contract>, state: SizingState, st: Settings, id: nat, m: Market)
    requires st.Valid() && IsCredit(intent.strategy)
    ensures var outcome := CreditPlan(intent, universe, state, st, id, m);
            var widthless, empty := NoWidth(intent, st), NothingInTime(intent, universe, m.today);
            && (widthless ==> outcome == Refused(MissingSpreadWidth))
            && (!widthless && empty ==> outcome == Refused(NoContractsInWindow))
            && (!widthless && !empty && NoCompleteExpiry(intent, universe, st, m) ==>
                  outcome == Refused(NoCreditStructureAvailable))
  {
    hide FinishCredit, Best, CreditOffer, InWindow, NothingInTime, NoCompleteExpiry, FirstRejection, Contracts, Credit, Expiries;
    NoCompleteOffer(intent, universe, st, m);
    EmptyWindowIff(intent, universe, m);
  }

  /** No width, no contract in the window, no complete structure: each refused as such exactly when no earlier one applies. */
  lemma CreditUnbuildableIff(intent: Intent, universe: seq<Contract>, state: SizingState, st: Settings, id: nat, m: Market)
    requires st.Valid() && IsCredit(intent.strategy)
    ensures var outcome := CreditPlan(intent, universe, state, st, id, m);
            var widthless, empty := NoWidth(intent, st), NothingInTime(intent, universe, m.today);
            && (outcome == Refused(MissingSpreadWidth) <==> widthless)
            && (outcome == Refused(NoContractsInWindow) <==> !widthless && empty)
            && (outcome == Refused(NoCreditStructureAvailable)
                <==> !widthless && !empty && NoCompleteExpiry(intent, universe, st, m))
  {
    hide CreditPlan, InWindow, InTime, Expiries, NoStructure, OfExpiry, Illiquid, Unsized, BestFigure;
    CreditStopsEarly(intent, universe, state, st, id, m);
    CreditRefusal(intent, universe, state, st, id, m);
  }

  ghost predicate NoPairAnywhere(intent: Intent, universe: seq<Contract>, m: Market) {
    var inWindow := InWindow(universe, intent, m.today);
    forall e :: e in Expiries(inWindow) ==> !StranglePair(intent, OfExpiry(inWindow, e), m)
  }

  lemma StrangleStopsEarly(intent: Intent, universe: seq<Contract>, state: SizingState, st: Settings, id: nat, m: Market)
    requires st.Valid()
    ensures var outcome, empty := StranglePlan(intent, universe, state, st, id, m), NothingInTime(intent, universe, m.today);
            && (empty ==> outcome == Refused(NoContractsInWindow))
            && (!empty && NoPairAnywhere(intent, universe, m) ==> outcome == Refused(NoStranglePairAvailable))
  {
    hide FinishStrangle, Best, StrangleOffer, InWindow, StranglePair, OfExpiry, NothingInTime, Expiries;
    EmptyWindowIff(intent, universe, m);
    var inWindow := InWindow(universe, intent, m.today);
    forall e ensures StrangleOffer(intent, inWindow, st, m)(e).Some? <==> StranglePair(intent, OfExpiry(inWindow, e), m) {
      OfferIsPair(intent, inWindow, st, m, e);
    }
  }

  /** The same of a strangle, which needs no width. */
  lemma StrangleUnbuildableIff(intent: Intent, universe: seq<Contract>, state: SizingState, st: Settings, id: nat, m: Market)
    requires st.Valid()
    ensures var outcome, empty := StranglePlan(intent, universe, state, st, id, m), NothingInTime(intent, universe, m.today);
            && (outcome == Refused(NoContractsInWindow) <==> empty)
            && (outcome == Refused(NoStranglePairAvailable) <==> !empty && NoPairAnywhere(intent, universe, m))
  {
    hide StranglePlan, InWindow, StranglePair, OfExpiry, InTime, Expiries, Illiquid, Unsized;
    StrangleStopsEarly(intent, universe, state, st, id, m);
    StrangleRefusal(intent, universe, state, st, id, m);
  }

  predicate NoCandidate(intent: Intent, universe: seq<Contract>, today: int)
    requires IsFunnel(intent.strategy)
  {
    forall c :: c in universe ==> !Candidate(c, intent, today)
  }

  predicate NoDeltas(intent: Intent, universe: seq<Contract>, m: Market)
    requires IsFunnel(intent.strategy)
  {
    forall c :: c in universe && Candidate(c, intent, m.today) ==> EffectiveDelta(c, m).None?
  }

  lemma FunnelStopsEarly(intent: Intent, universe: seq<Contract>, state: SizingState, holding: Option<Holding>,
                         st: Settings, id: nat, m: Market)
    requires st.Valid() && IsFunnel(intent.strategy)
    ensures var outcome, empty := FunnelPlan(intent, universe, state, holding, st, id, m), NoCandidate(intent, universe, m.today);
            && (empty ==> outcome == Refused(NoContractsInWindow))
            && (!empty && NoDeltas(intent, universe, m) ==> outcome == Refused(NoDeltaDataAvailable))
  {
    hide FinishFunnel, Primary, LiquidityRejection, LegFields, Secondary, InWindow, OfType;
    CandidatesAre(intent, universe, m.today);
    var t := FunnelType(intent.strategy);
    var candidates := InWindow(OfType(universe, t), intent, m.today);
    if candidates != [] { assert candidates[0] in candidates; }
    assert forall c :: c in candidates ==> (Eligible(c, t, m) <==> EffectiveDelta(c, m).Some?);
  }

  /** And of a plan of one option type: no contract of the type in the window, or none of them with a delta. */
  lemma FunnelUnbuildableIff(intent: Intent, universe: seq<Contract>, state: SizingState, holding: Option<Holding>,
                             st: Settings, id: nat, m: Market)
    requires st.Valid() && IsFunnel(intent.strategy)
    ensures var outcome, empty := FunnelPlan(intent, universe, state, holding, st, id, m), NoCandidate(intent, universe, m.today);
            && (outcome == Refused(NoContractsInWindow) <==> empty)
            && (outcome == Refused(NoDeltaDataAvailable) <==> !empty && NoDeltas(intent, universe, m))
  {
    hide FunnelPlan, Candidate, EffectiveDelta, Illiquid, Unsized, VerticalFact, Chosen;
    FunnelStopsEarly(intent, universe, state, holding, st, id, m);
    if IsVertical(intent.strategy) { VerticalFunnelFact(intent, universe, state, holding, st, id, m); }
    else { LoneFunnelFact(intent, universe, state, holding, st, id, m); }
  }
}
