/** From an intent and a chain to a priced, sized order plan, or the reason there is none. */
module StrategyBuilder {
  import opened Models
  import opened Sizing
  import opened Selection

  datatype Reason =
    | UnsupportedStrategy | NoContractsInWindow | NoDeltaDataAvailable
    | MissingOrZeroQuote | WideSpread | LowOpenInterest
    | MissingSpreadWidth | NoStrikeWithinIncrement
    | NotADebit | NetDebitExceedsWidth | DebitExceedsWidthPct | RewardRiskTooLow
    | NoUnderlyingShares | UndefinedRisk
    | NoStranglePairAvailable | NoCreditStructureAvailable
    | NotACredit | CreditExceedsWidth | ThinCredit | CreditTooRich
    | NotSized(why: Option<Block>)

  /** `Raised` is an exception: a leg that fails validation, or a division by a zero max loss. */
  datatype Outcome = Planned(plan: OrderPlan) | Refused(reason: Reason) | Raised

  /** The broker's row for shares of the underlying. */
  datatype Holding = Holding(qty: Option<real>, short: bool)

  function Canonical(s: Strategy): Strategy {
    match s
    case CallDebitSpread => DebitCallSpread
    case PutDebitSpread => DebitPutSpread
    case _ => s
  }

  predicate Supported(s: Strategy) { !s.CallDebitSpread? && !s.PutDebitSpread? && !s.Unlisted? }

  predicate IsVertical(s: Strategy) { s == DebitCallSpread || s == DebitPutSpread }

  predicate IsShortOnly(s: Strategy) { s == CoveredCall || s == CashSecuredPut }

  /** The strategies built from one primary contract with an optional same-type partner. */
  predicate IsFunnel(s: Strategy) { s == LongCall || s == LongPut || IsVertical(s) || IsShortOnly(s) }

  function FunnelType(s: Strategy): OptionType {
    if s == LongCall || s == DebitCallSpread || s == CoveredCall then Call else Put
  }

  // ---- Liquidity, legs, prices ------------------------------------------

  predicate Priced(c: Contract) {
    c.bid.Some? && c.ask.Some? && c.bid.value > 0.0 && c.ask.value > 0.0
  }

  function Mid(c: Contract): real
    requires c.bid.Some? && c.ask.Some?
  {
    (c.bid.value + c.ask.value) / 2.0
  }

  function Spread(c: Contract): real
    requires c.bid.Some? && c.ask.Some?
  {
    c.ask.value - c.bid.value
  }

  /** Too wide only when wide in both senses: against the mid and in dollars. */
  function LiquidityRejection(c: Contract, st: Settings): (r: Option<Reason>)
    ensures r.None? <==>
              && Priced(c)
              && (Spread(c) <= st.maxSpreadAbs || Spread(c) / Mid(c) <= st.maxSpreadPct)
              && c.openInterest.Some? && c.openInterest.value >= st.minOpenInterest
  {
    if !Priced(c) then Some(MissingOrZeroQuote)
    else if Mid(c) > 0.0 && Spread(c) / Mid(c) > st.maxSpreadPct && Spread(c) > st.maxSpreadAbs then Some(WideSpread)
    else if c.openInterest.None? || c.openInterest.value < st.minOpenInterest then Some(LowOpenInterest)
    else None
  }

  /** The first refusal among several contracts, in order. */
  function FirstRejection(cs: seq<Contract>, st: Settings): (r: Option<Reason>)
    ensures r.None? <==> forall c :: c in cs ==> LiquidityRejection(c, st).None?
  {
    if cs == [] then None
    else if LiquidityRejection(cs[0], st).Some? then LiquidityRejection(cs[0], st)
    else FirstRejection(cs[1..], st)
  }

  /** The field bounds a leg is validated against when it is constructed. */
  predicate LegFields(c: Contract, delta: Option<real>) {
    && c.strike > 0.0
    && (delta.Some? ==> -1.0 <= delta.value <= 1.0)
    && (c.bid.Some? ==> c.bid.value >= 0.0)
    && (c.ask.Some? ==> c.ask.value >= 0.0)
    && (c.openInterest.Some? ==> c.openInterest.value >= 0)
  }

  function MakeLeg(c: Contract, side: Side, delta: Option<real>): Leg {
    Leg(c.symbol, side, 1, c.strike, c.expiry, c.optionType, delta, c.bid, c.ask, c.openInterest)
  }

  // ---- Finishing a plan -------------------------------------------------

  /** Per-contract dollars, as the risk profile states them. */
  datatype Profile = Profile(maxLoss: real, maxProfit: Option<real>, breakeven: Option<real>)

  function Finish(intent: Intent, legs: seq<Leg>, limitPrice: real, p: Profile, state: SizingState,
                  st: Settings, id: nat, strike: Option<real>): Outcome
    requires st.Valid()
    requires strike.Some? ==> strike.value > 0.0
  {
    var d := Size(intent.strategy, intent.conviction, p.maxLoss, state, st, strike);
    if d.qty == 0 then Refused(NotSized(d.blocked))
    else
      Planned(OrderPlan(id, intent.underlying, intent.strategy, legs, d.qty, limitPrice,
                        p.maxLoss * d.qty as real,
                        if p.maxProfit.None? then None else Some(p.maxProfit.value * d.qty as real),
                        p.breakeven))
  }

  // ---- One primary contract, with an optional partner -------------------

  function MonthlyRank(c: Contract, st: Settings, m: Market): int {
    if st.monthlyPreference && m.monthly(c.expiry) then 0 else 1
  }

  /** The candidate with the smallest delta gap, standard monthlies first on a tie, then listing order. */
  function Primary(cs: seq<Contract>, t: OptionType, intent: Intent, st: Settings, m: Market): (r: Option<Pick>)
    ensures r.None? <==> forall c :: c in cs ==> !Eligible(c, t, m)
    ensures r.Some? ==>
              var p := r.value;
              && p.contract in cs && Eligible(p.contract, t, m)
              && EffectiveDelta(p.contract, m) == Some(p.delta)
              && p.diff == DeltaGap(p.contract, intent.targetDelta, m)
              && forall c :: c in cs && Eligible(c, t, m) ==>
                   p.diff < DeltaGap(c, intent.targetDelta, m)
                   || (p.diff == DeltaGap(c, intent.targetDelta, m)
                       && MonthlyRank(p.contract, st, m) <= MonthlyRank(c, st, m))
  {
    if cs == [] then None
    else
      var c := cs[|cs| - 1];
      var best := Primary(cs[..|cs| - 1], t, intent, st, m);
      assert forall d :: d in cs <==> d in cs[..|cs| - 1] || d == c;
      if !Eligible(c, t, m) then best
      else
        var diff := DeltaGap(c, intent.targetDelta, m);
        if best.None? || diff < best.value.diff
           || (diff == best.value.diff && MonthlyRank(c, st, m) < MonthlyRank(best.value.contract, st, m))
        then Some(Pick(c, EffectiveDelta(c, m).value, diff)) else best
  }

  /** Without the preference for monthlies it is the plain closest delta. */
  lemma {:induction false} NoPreferenceIsClosest(cs: seq<Contract>, t: OptionType, intent: Intent, st: Settings,
                                        m: Market)
    requires !st.monthlyPreference
    ensures Primary(cs, t, intent, st, m) == Closest(cs, t, intent.targetDelta, m)
  {
    if cs != [] { NoPreferenceIsClosest(cs[..|cs| - 1], t, intent, st, m); }
  }

  /** With it, a standard monthly wins among equally close deltas. */
  lemma MonthliesWinTies(cs: seq<Contract>, t: OptionType, intent: Intent, st: Settings, m: Market, other: Contract)
    requires st.monthlyPreference && Primary(cs, t, intent, st, m).Some?
    requires other in cs && Eligible(other, t, m)
    requires DeltaGap(other, intent.targetDelta, m) == Primary(cs, t, intent, st, m).value.diff
    ensures m.monthly(other.expiry) ==> m.monthly(Primary(cs, t, intent, st, m).value.contract.expiry)
  {
    hide Primary, Eligible, DeltaGap;
  }

  function PartnerTarget(strategy: Strategy, primary: Contract, width: real): real {
    if strategy == DebitCallSpread then primary.strike + width else primary.strike - width
  }

  /** The partner leg of a debit vertical, snapped to a listed strike within one increment of the target. */
  function Secondary(intent: Intent, sameExpiry: seq<Contract>, primary: Contract, st: Settings, m: Market)
    : (r: (Option<Contract>, Reason))
    requires IsVertical(intent.strategy) && primary in sameExpiry
    ensures r.0.Some? ==> r.0.value in sameExpiry && r.0.value.strike != primary.strike
    ensures r.0.Some? ==>
              var width := TargetWidth(intent, sameExpiry, st, m, primary.expiry - m.today);
              && width.Some? && width.value > 0.0 && |Ladder(sameExpiry)| >= 2
              && Abs(r.0.value.strike - PartnerTarget(intent.strategy, primary, width.value)) <= MinGap(Ladder(sameExpiry))
  {
    var width := TargetWidth(intent, sameExpiry, st, m, primary.expiry - m.today);
    if width.None? || width.value <= 0.0 then (None, MissingSpreadWidth)
    else
      var target := PartnerTarget(intent.strategy, primary, width.value);
      var others := Ladder(Filter(sameExpiry, (c: Contract) => c.strike != primary.strike));
      if others == [] then (None, NoStrikeWithinIncrement)
      else
        var nearest := others[Nearest(others, target)];
        LadderHasGap(sameExpiry, primary, others);
        if Abs(nearest - target) > MinGap(Ladder(sameExpiry)) then (None, NoStrikeWithinIncrement)
        else
          assert nearest in others;
          assert exists c :: c in sameExpiry && c.strike == nearest;
          var found := AtStrike(sameExpiry, nearest);
          assert found != [] && found[0] in found;
          (Some(found[0]), NoStrikeWithinIncrement)
  }

  /** Two distinct strikes are enough for the ladder to have a gap. */
  lemma {:induction false} LadderHasGap(cs: seq<Contract>, primary: Contract, others: seq<real>)
    requires primary in cs && others != []
    requires forall y :: y in others ==> y != primary.strike && exists c :: c in cs && c.strike == y
    ensures |Ladder(cs)| >= 2
  {
    var ladder := Ladder(cs);
    assert others[0] in others;
    assert primary.strike in ladder && others[0] in ladder;
  }

  /** Net entry price; `None` when a two-leg structure would not be paid for. */
  function EntryPrice(strategy: Strategy, primary: Contract, partner: Option<Contract>, st: Settings): Option<real>
    requires Priced(primary) && (partner.Some? ==> Priced(partner.value))
  {
    if partner.Some? then
      var net := Mid(primary) - Mid(partner.value);
      if net <= 0.0 then None else Some(net + st.spreadNudgePct * (Spread(primary) + Spread(partner.value)))
    else if IsShortOnly(strategy) then Some(Mid(primary) - st.spreadNudgePct * Spread(primary))
    else Some(Mid(primary) + st.spreadNudgePct * Spread(primary))
  }

  datatype Assessment = Assessed(p: Profile) | Bad(reason: Reason) | DividesByZero

  function RiskProfile(strategy: Strategy, primary: Contract, partner: Option<Contract>, entry: real,
                       spot: real, holding: Option<Holding>, st: Settings): Assessment
    requires IsFunnel(strategy)
    requires IsVertical(strategy) ==> partner.Some? && partner.value.strike != primary.strike
  {
    if strategy == LongCall then Assessed(Profile(entry * MULTIPLIER, None, Some(primary.strike + entry)))
    else if strategy == LongPut then Assessed(Profile(entry * MULTIPLIER, None, Some(primary.strike - entry)))
    else if strategy == CoveredCall then
      if holding.None? || holding.value.qty.None? || holding.value.qty.value < 100.0 || holding.value.short
      then Bad(NoUnderlyingShares)
      else
        var maxLoss := Max(0.0, spot * MULTIPLIER - entry * MULTIPLIER);
        if maxLoss <= 0.0 then Bad(UndefinedRisk)
        else
          var maxProfit := if primary.strike > spot then (primary.strike - spot) * MULTIPLIER + entry * MULTIPLIER
                           else entry * MULTIPLIER;
          Assessed(Profile(maxLoss, Some(maxProfit), Some(spot - entry)))
    else if strategy == CashSecuredPut then
      var maxLoss := (primary.strike - entry) * MULTIPLIER;
      if maxLoss <= 0.0 then Bad(UndefinedRisk)
      else Assessed(Profile(maxLoss, Some(entry * MULTIPLIER), Some(primary.strike - entry)))
    else
      var width := Abs(primary.strike - partner.value.strike);
      if entry >= width then Bad(NetDebitExceedsWidth)
      else if entry / width > st.maxDebitWidthPct then Bad(DebitExceedsWidthPct)
      else
        var maxLoss := entry * MULTIPLIER;
        var maxProfit := (width - entry) * MULTIPLIER;
        if maxLoss == 0.0 then DividesByZero
        else if maxProfit / maxLoss < st.minRewardRisk then Bad(RewardRiskTooLow)
        else
          Assessed(Profile(maxLoss, Some(maxProfit),
                           Some(if strategy == DebitCallSpread then primary.strike + entry
                                else primary.strike - entry)))
  }

  /** Price, assess and size the legs once they are chosen and liquid. */
  function FinishFunnel(intent: Intent, primary: Contract, partner: Option<Contract>, legs: seq<Leg>,
                        state: SizingState, holding: Option<Holding>, st: Settings, id: nat, m: Market): Outcome
    requires st.Valid() && IsFunnel(intent.strategy)
    requires Priced(primary) && primary.strike > 0.0
    requires partner.Some? <==> IsVertical(intent.strategy)
    requires partner.Some? ==> Priced(partner.value) && partner.value.strike != primary.strike
  {
    var entry := EntryPrice(intent.strategy, primary, partner, st);
    if entry.None? then Refused(NotADebit)
    else
      match RiskProfile(intent.strategy, primary, partner, entry.value, m.spot, holding, st)
      case Bad(reason) => Refused(reason)
      case DividesByZero => Raised
      case Assessed(p) => Finish(intent, legs, entry.value, p, state, st, id, Some(primary.strike))
  }

  function FunnelPlan(intent: Intent, universe: seq<Contract>, state: SizingState, holding: Option<Holding>,
                      st: Settings, id: nat, m: Market): Outcome
    requires st.Valid() && IsFunnel(intent.strategy)
  {
    var t := FunnelType(intent.strategy);
    var candidates := InWindow(OfType(universe, t), intent, m.today);
    var pick := Primary(candidates, t, intent, st, m);
    if candidates == [] then Refused(NoContractsInWindow)
    else if pick.None? then Refused(NoDeltaDataAvailable)
    else
      var primary := pick.value.contract;
      var first := MakeLeg(primary, if IsShortOnly(intent.strategy) then Sell else Buy, Some(pick.value.delta));
      if LiquidityRejection(primary, st).Some? then Refused(LiquidityRejection(primary, st).value)
      else if !LegFields(primary, Some(pick.value.delta)) then Raised
      else if !IsVertical(intent.strategy) then
        FinishFunnel(intent, primary, None, [first], state, holding, st, id, m)
      else
        var sameExpiry := OfExpiry(candidates, primary.expiry);
        var (partner, reason) := Secondary(intent, sameExpiry, primary, st, m);
        if partner.None? then Refused(reason)
        else
          var second := partner.value;
          if LiquidityRejection(second, st).Some? then Refused(LiquidityRejection(second, st).value)
          else if !LegFields(second, EffectiveDelta(second, m)) then Raised
          else
            FinishFunnel(intent, primary, partner, [first, MakeLeg(second, Sell, EffectiveDelta(second, m))],
                         state, holding, st, id, m)
  }

  // ---- Long strangle ----------------------------------------------------

  function StrangleEntry(call: Contract, put: Contract, st: Settings): real
    requires Priced(call) && Priced(put)
  {
    Mid(call) + Mid(put) + st.spreadNudgePct * (Spread(call) + Spread(put))
  }

  function FinishStrangle(intent: Intent, call: Pick, put: Pick, state: SizingState, st: Settings, id: nat): Outcome
    requires st.Valid()
  {
    var c, p := call.contract, put.contract;
    var rejection := FirstRejection([c, p], st);
    if rejection.Some? then Refused(rejection.value)
    else
      assert c in [c, p] && p in [c, p];
      var entry := StrangleEntry(c, p, st);
      var outcome := Finish(intent, [MakeLeg(c, Buy, Some(call.delta)), MakeLeg(p, Buy, Some(put.delta))],
                            entry, Profile(entry * MULTIPLIER, None, None), state, st, id, None);
      if outcome.Planned? && !(LegFields(c, Some(call.delta)) && LegFields(p, Some(put.delta))) then Raised
      else outcome
  }

  ghost function StranglePlan(intent: Intent, universe: seq<Contract>, state: SizingState,
                              st: Settings, id: nat, m: Market): Outcome
    requires st.Valid()
  {
    var inWindow := InWindow(universe, intent, m.today);
    var best := Best(Expiries(inWindow), StrangleOffer(intent, inWindow, st, m));
    if inWindow == [] then Refused(NoContractsInWindow)
    else if best.None? then Refused(NoStranglePairAvailable)
    else FinishStrangle(intent, best.value.1.0, best.value.1.1, state, st, id)
  }

  method BuildLongStrangle(intent: Intent, universe: seq<Contract>, state: SizingState,
                           st: Settings, id: nat, m: Market) returns (r: Outcome)
    requires st.Valid()
    ensures r == StranglePlan(intent, universe, state, st, id, m)
  {
    var inWindow := InWindow(universe, intent, m.today);
    if inWindow == [] { return Refused(NoContractsInWindow); }
    var best := BestOffer(Expiries(inWindow), StrangleOffer(intent, inWindow, st, m));
    if best.None? { return Refused(NoStranglePairAvailable); }
    r := FinishStrangle(intent, best.value.1.0, best.value.1.1, state, st, id);
  }

  // ---- Credit structures ------------------------------------------------

  /** Short then long of every vertical, in order. */
  function Contracts(vs: seq<Vertical>): seq<Contract> {
    if vs == [] then [] else [vs[0].short, vs[0].long] + Contracts(vs[1..])
  }

  function CreditLegs(vs: seq<Vertical>): seq<Leg> {
    if vs == [] then []
    else [MakeLeg(vs[0].short, Sell, vs[0].shortDelta), MakeLeg(vs[0].long, Buy, vs[0].longDelta)] + CreditLegs(vs[1..])
  }

  predicate AllPriced(vs: seq<Vertical>) { forall v :: v in vs ==> Priced(v.short) && Priced(v.long) }

  function NetMid(vs: seq<Vertical>): real
    requires AllPriced(vs)
  {
    if vs == [] then 0.0
    else NetMid(vs[..|vs| - 1]) + Mid(vs[|vs| - 1].short) - Mid(vs[|vs| - 1].long)
  }

  function SpreadTotal(vs: seq<Vertical>): real
    requires AllPriced(vs)
  {
    if vs == [] then 0.0
    else SpreadTotal(vs[..|vs| - 1]) + Spread(vs[|vs| - 1].short) + Spread(vs[|vs| - 1].long)
  }

  /** The net credit, carried positive. */
  function Credit(vs: seq<Vertical>, st: Settings): real
    requires AllPriced(vs)
  {
    NetMid(vs) - st.spreadNudgePct * SpreadTotal(vs)
  }

  method NetCredit(vs: seq<Vertical>, st: Settings) returns (credit: real)
    requires AllPriced(vs)
    ensures credit == Credit(vs, st)
  {
    credit := 0.0;
    var spreadTotal := 0.0;
    for i := 0 to |vs|
      invariant credit == NetMid(vs[..i])
      invariant spreadTotal == SpreadTotal(vs[..i])
    {
      assert vs[..i + 1][..i] == vs[..i];
      credit := credit + Mid(vs[i].short);
      spreadTotal := spreadTotal + Spread(vs[i].short);
      credit := credit - Mid(vs[i].long);
      spreadTotal := spreadTotal + Spread(vs[i].long);
    }
    assert vs[..|vs|] == vs;
    credit := credit - st.spreadNudgePct * spreadTotal;
  }

  /** Only one side of an iron structure can be breached, so the exposure is the widest wing. */
  function WidestWing(vs: seq<Vertical>): (w: real)
    requires vs != []
    ensures exists v :: v in vs && v.Width() == w
    ensures forall v :: v in vs ==> v.Width() <= w
  {
    if |vs| == 1 then vs[0].Width() else Max(vs[0].Width(), WidestWing(vs[1..]))
  }

  function CreditBreakeven(strategy: Strategy, short: real, credit: real): Option<real> {
    match strategy
    case PutCreditSpread => Some(short - credit)
    case CallCreditSpread => Some(short + credit)
    case _ => None
  }

  function FinishCredit(intent: Intent, vs: seq<Vertical>, credit: real, state: SizingState,
                        st: Settings, id: nat): Outcome
    requires st.Valid() && vs != [] && WidestWing(vs) > 0.0
  {
    var width := WidestWing(vs);
    if credit <= 0.0 then Refused(NotACredit)
    else if credit >= width then Refused(CreditExceedsWidth)
    else if credit / width < st.minCreditWidthPct then Refused(ThinCredit)
    else if credit / width > st.maxCreditWidthPct then Refused(CreditTooRich)
    else
      var outcome := Finish(intent, CreditLegs(vs), -credit,
                            Profile((width - credit) * MULTIPLIER, Some(credit * MULTIPLIER),
                                    CreditBreakeven(intent.strategy, vs[0].short.strike, credit)),
                            state, st, id, None);
      if outcome.Planned? && exists v :: v in vs && !(LegFields(v.short, v.shortDelta) && LegFields(v.long, v.longDelta))
      then Raised else outcome
  }

  lemma {:induction false} ContractsOf(vs: seq<Vertical>)
    ensures forall v :: v in vs ==> v.short in Contracts(vs) && v.long in Contracts(vs)
  {
    if vs != [] {
      ContractsOf(vs[1..]);
      forall v | v in vs ensures v.short in Contracts(vs) && v.long in Contracts(vs) { assert v == vs[0] || v in vs[1..]; }
    }
  }

  /** The winning offer is a complete leg set listed on one expiry of the window. */
  lemma BestCreditIsAssembled(intent: Intent, inWindow: seq<Contract>, st: Settings, m: Market)
    returns (expiry: int)
    requires IsCredit(intent.strategy)
    requires Best(Expiries(inWindow), CreditOffer(intent, inWindow, st, m)).Some?
    ensures expiry in Expiries(inWindow)
    ensures Assembled(intent.strategy, Best(Expiries(inWindow), CreditOffer(intent, inWindow, st, m)).value.1,
                      OfExpiry(inWindow, expiry))
  {
    hide CreditOffer;
    var offer := CreditOffer(intent, inWindow, st, m);
    expiry :| expiry in Expiries(inWindow) && offer(expiry) == Best(Expiries(inWindow), offer);
    OfferIsAssembled(intent, inWindow, st, m, expiry);
  }

  lemma OfferIsAssembled(intent: Intent, inWindow: seq<Contract>, st: Settings, m: Market, expiry: int)
    requires IsCredit(intent.strategy)
    requires CreditOffer(intent, inWindow, st, m)(expiry).Some?
    ensures Assembled(intent.strategy, CreditOffer(intent, inWindow, st, m)(expiry).value.1, OfExpiry(inWindow, expiry))
  {
    hide AssembleVerticals, Assembled, TotalScore, Penalty;
  }

  /** Assembled verticals have positive widths, and liquid ones are priced. */
  lemma {:induction false} BestCreditFacts(intent: Intent, inWindow: seq<Contract>, st: Settings, m: Market)
    requires IsCredit(intent.strategy)
    requires Best(Expiries(inWindow), CreditOffer(intent, inWindow, st, m)).Some?
    ensures var vs := Best(Expiries(inWindow), CreditOffer(intent, inWindow, st, m)).value.1;
            && vs != [] && WidestWing(vs) > 0.0
            && (FirstRejection(Contracts(vs), st).None? ==> AllPriced(vs))
  {
    hide CreditOffer, Best;
    var expiry := BestCreditIsAssembled(intent, inWindow, st, m);
    var vs := Best(Expiries(inWindow), CreditOffer(intent, inWindow, st, m)).value.1;
    ContractsOf(vs);
    assert vs[0] in vs && vs[0].Width() > 0.0;
  }

  ghost function CreditPlan(intent: Intent, universe: seq<Contract>, state: SizingState,
                            st: Settings, id: nat, m: Market): Outcome
    requires st.Valid() && IsCredit(intent.strategy)
  {
    var inWindow := InWindow(universe, intent, m.today);
    var offer := CreditOffer(intent, inWindow, st, m);
    var best := Best(Expiries(inWindow), offer);
    if intent.spreadWidth.None? && MoveMult(intent.strategy, st) <= 0.0 then Refused(MissingSpreadWidth)
    else if inWindow == [] then Refused(NoContractsInWindow)
    else if best.None? then Refused(NoCreditStructureAvailable)
    else
      var vs := best.value.1;
      BestCreditFacts(intent, inWindow, st, m);
      var rejection := FirstRejection(Contracts(vs), st);
      if rejection.Some? then Refused(rejection.value)
      else FinishCredit(intent, vs, Credit(vs, st), state, st, id)
  }

  method BuildCreditStructure(intent: Intent, universe: seq<Contract>, state: SizingState,
                              st: Settings, id: nat, m: Market) returns (r: Outcome)
    requires st.Valid() && IsCredit(intent.strategy)
    ensures r == CreditPlan(intent, universe, state, st, id, m)
  {
    hide Best, CreditOffer, Credit, FinishCredit, FirstRejection, InWindow;
    if intent.spreadWidth.None? && MoveMult(intent.strategy, st) <= 0.0 { return Refused(MissingSpreadWidth); }
    var inWindow := InWindow(universe, intent, m.today);
    if inWindow == [] { return Refused(NoContractsInWindow); }
    var offer := CreditOffer(intent, inWindow, st, m);
    var best := BestOffer(Expiries(inWindow), offer);
    if best.None? { return Refused(NoCreditStructureAvailable); }
    var vs := best.value.1;
    BestCreditFacts(intent, inWindow, st, m);
    var rejection := FirstRejection(Contracts(vs), st);
    if rejection.Some? { return Refused(rejection.value); }
    var credit := NetCredit(vs, st);
    r := FinishCredit(intent, vs, credit, state, st, id);
  }

  // ---- The builder ------------------------------------------------------

  ghost function PlanFor(intent: Intent, universe: seq<Contract>, state: SizingState, holding: Option<Holding>,
                         st: Settings, id: nat, m: Market): Outcome
    requires st.Valid()
  {
    var named := intent.(strategy := Canonical(intent.strategy));
    if !Supported(named.strategy) then Refused(UnsupportedStrategy)
    else if named.strategy == LongStrangle then StranglePlan(named, universe, state, st, id, m)
    else if IsCredit(named.strategy) then CreditPlan(named, universe, state, st, id, m)
    else FunnelPlan(named, universe, state, holding, st, id, m)
  }

  method Build(intent: Intent, universe: seq<Contract>, state: SizingState, holding: Option<Holding>,
               st: Settings, id: nat, m: Market) returns (r: Outcome)
    requires st.Valid()
    ensures r == PlanFor(intent, universe, state, holding, st, id, m)
  {
    var named := intent.(strategy := Canonical(intent.strategy));
    if !Supported(named.strategy) { return Refused(UnsupportedStrategy); }
    if named.strategy == LongStrangle {
      r := BuildLongStrangle(named, universe, state, st, id, m);
    } else if IsCredit(named.strategy) {
      r := BuildCreditStructure(named, universe, state, st, id, m);
    } else {
      r := FunnelPlan(named, universe, state, holding, st, id, m);
    }
  }
}
