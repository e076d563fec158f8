/** Every plan's limit price, read back from the quotes of the plan's own legs. */
module PlanPricing {
  import opened Models
  import opened Sizing
  import opened Selection
  import opened StrategyBuilder
  import opened Payoff
  import opened PlanRisk

  predicate Quoted(legs: seq<Leg>) { forall leg :: leg in legs ==> leg.bid.Some? && leg.ask.Some? }

  function LegMid(leg: Leg): real
    requires leg.bid.Some? && leg.ask.Some?
  {
    (leg.bid.value + leg.ask.value) / 2.0
  }

  /** What the legs cost at their mids, a sold leg counting against a bought one. */
  function LegsMid(legs: seq<Leg>): real
    requires Quoted(legs)
  {
    if legs == [] then 0.0
    else
      assert legs[0] in legs;
      (if legs[0].side == Buy then LegMid(legs[0]) else -LegMid(legs[0])) + LegsMid(legs[1..])
  }

  /** Ask less bid, summed over the legs whichever way they trade. */
  function LegsSpread(legs: seq<Leg>): real
    requires Quoted(legs)
  {
    if legs == [] then 0.0
    else
      assert legs[0] in legs;
      legs[0].ask.value - legs[0].bid.value + LegsSpread(legs[1..])
  }

  /** The cash paid to open is the legs' mid and the nudge's share of all their spreads on top. */
  ghost predicate PricedOff(plan: OrderPlan, nudge: real) {
    && Quoted(plan.legs)
    && -CashIn(plan.strategy, plan.limitPrice) == LegsMid(plan.legs) + nudge * LegsSpread(plan.legs)
  }

  lemma OneLegCosts(leg: Leg)
    requires leg.bid.Some? && leg.ask.Some?
    ensures Quoted([leg]) && LegsMid([leg]) == (if leg.side == Buy then LegMid(leg) else -LegMid(leg))
    ensures LegsSpread([leg]) == leg.ask.value - leg.bid.value
  {
    assert [leg][1..] == [];
  }

  lemma TwoLegsCost(a: Leg, b: Leg)
    requires a.bid.Some? && a.ask.Some? && b.bid.Some? && b.ask.Some?
    ensures Quoted([a, b]) && LegsMid([a, b]) == LegsMid([a]) + LegsMid([b])
    ensures LegsSpread([a, b]) == LegsSpread([a]) + LegsSpread([b])
  {
    assert [a, b][1..] == [b] && [a][1..] == [];
  }

  lemma {:induction false} ConsCosts(a: Leg, rest: seq<Leg>)
    requires Quoted([a] + rest)
    ensures Quoted(rest) && a.bid.Some? && a.ask.Some?
    ensures LegsMid([a] + rest) == (if a.side == Buy then LegMid(a) else -LegMid(a)) + LegsMid(rest)
    ensures LegsSpread([a] + rest) == a.ask.value - a.bid.value + LegsSpread(rest)
  {
    var legs := [a] + rest;
    assert legs[0] == a && legs[0] in legs && legs[1..] == rest;
    assert forall leg :: leg in rest ==> leg in legs;
  }

  // ---- Credit structures --------------------------------------------------

  lemma {:induction false} AllQuoted(vs: seq<Vertical>)
    requires AllPriced(vs)
    ensures Quoted(CreditLegs(vs))
  {
    if vs != [] {
      assert vs[0] in vs;
      AllQuoted(vs[1..]);
    }
  }

  lemma {:induction false} FirstVertical(v: Vertical, rest: seq<Vertical>)
    requires AllPriced([v] + rest)
    ensures NetMid([v] + rest) == Mid(v.short) - Mid(v.long) + NetMid(rest)
    ensures SpreadTotal([v] + rest) == Spread(v.short) + Spread(v.long) + SpreadTotal(rest)
    decreases |rest|
  {
    var all := [v] + rest;
    assert v in all && forall w :: w in rest ==> w in all;
    if rest == [] {
      assert all[..0] == [] && all[0] == v;
    } else {
      var front, last := rest[..|rest| - 1], rest[|rest| - 1];
      assert all[..|all| - 1] == [v] + front && all[|all| - 1] == last;
      assert forall w :: w in front ==> w in rest;
      FirstVertical(v, front);
    }
  }

  /** The credit is the legs' mid and nudged spreads, taken in instead of paid. */
  lemma {:induction false} CreditOffTheLegs(vs: seq<Vertical>)
    requires AllPriced(vs)
    ensures Quoted(CreditLegs(vs))
    ensures NetMid(vs) == -LegsMid(CreditLegs(vs)) && SpreadTotal(vs) == LegsSpread(CreditLegs(vs))
    decreases |vs|
  {
    AllQuoted(vs);
    if vs != [] {
      var v, rest := vs[0], vs[1..];
      assert v in vs && vs == [v] + rest && forall w :: w in rest ==> w in vs;
      CreditOffTheLegs(rest);
      FirstVertical(v, rest);
      var short, long := MakeLeg(v.short, Sell, v.shortDelta), MakeLeg(v.long, Buy, v.longDelta);
      assert CreditLegs(vs) == [short] + ([long] + CreditLegs(rest));
      hide CreditLegs, NetMid, SpreadTotal, LegsMid, LegsSpread;
      ConsCosts(short, [long] + CreditLegs(rest));
      ConsCosts(long, CreditLegs(rest));
    }
  }

  /** A planned credit structure, as its verticals and what finishes them. */
  lemma CreditSplits(intent: Intent, universe: seq<Contract>, state: SizingState, st: Settings, id: nat, m: Market)
    returns (vs: seq<Vertical>)
    requires st.Valid() && IsCredit(intent.strategy)
    requires CreditPlan(intent, universe, state, st, id, m).Planned?
    ensures vs != [] && WidestWing(vs) > 0.0 && AllPriced(vs)
    ensures CreditPlan(intent, universe, state, st, id, m) == FinishCredit(intent, vs, Credit(vs, st), state, st, id)
  {
    hide Best, CreditOffer, FirstRejection, InWindow, WidestWing, FinishCredit, Credit, Expiries, AllPriced;
    var inWindow := InWindow(universe, intent, m.today);
    vs := Best(Expiries(inWindow), CreditOffer(intent, inWindow, st, m)).value.1;
    BestCreditFacts(intent, inWindow, st, m);
  }

  lemma CreditPriced(intent: Intent, universe: seq<Contract>, state: SizingState, st: Settings, id: nat, m: Market)
    requires st.Valid() && IsCredit(intent.strategy)
    requires CreditPlan(intent, universe, state, st, id, m).Planned?
    ensures PricedOff(CreditPlan(intent, universe, state, st, id, m).plan, st.spreadNudgePct)
  {
    var vs := CreditSplits(intent, universe, state, st, id, m);
    hide *;
    FinishedPriced(intent, vs, state, st, id);
  }

  lemma {:induction false} FinishedPriced(intent: Intent, vs: seq<Vertical>, state: SizingState, st: Settings, id: nat)
    requires st.Valid() && IsCredit(intent.strategy) && vs != [] && WidestWing(vs) > 0.0 && AllPriced(vs)
    requires FinishCredit(intent, vs, Credit(vs, st), state, st, id).Planned?
    ensures PricedOff(FinishCredit(intent, vs, Credit(vs, st), state, st, id).plan, st.spreadNudgePct)
  {
    hide *;
    CreditIsTheCost(vs, st);
    FinishCreditKeeps(intent, vs, Credit(vs, st), state, st, id);
    CashOfCredit(FinishCredit(intent, vs, Credit(vs, st), state, st, id).plan, vs, st);
  }

  lemma {:induction false} CreditIsTheCost(vs: seq<Vertical>, st: Settings)
    requires AllPriced(vs)
    ensures Quoted(CreditLegs(vs))
    ensures -Credit(vs, st) == LegsMid(CreditLegs(vs)) + st.spreadNudgePct * LegsSpread(CreditLegs(vs))
  {
    hide Quoted, AllPriced, LegsMid, LegsSpread, NetMid, SpreadTotal, CreditLegs;
    CreditOffTheLegs(vs);
  }

  lemma {:induction false} CashOfCredit(plan: OrderPlan, vs: seq<Vertical>, st: Settings)
    requires AllPriced(vs) && IsCredit(plan.strategy) && Quoted(plan.legs)
    requires plan.legs == CreditLegs(vs) && plan.limitPrice == -Credit(vs, st)
    requires plan.limitPrice == LegsMid(plan.legs) + st.spreadNudgePct * LegsSpread(plan.legs)
    ensures PricedOff(plan, st.spreadNudgePct)
  {
    hide Quoted, AllPriced, LegsMid, LegsSpread, CreditLegs, Credit;
  }

  lemma {:induction false} FinishCreditKeeps(intent: Intent, vs: seq<Vertical>, credit: real, state: SizingState,
                                        st: Settings, id: nat)
    requires st.Valid() && vs != [] && WidestWing(vs) > 0.0 && FinishCredit(intent, vs, credit, state, st, id).Planned?
    ensures var plan := FinishCredit(intent, vs, credit, state, st, id).plan;
            plan.legs == CreditLegs(vs) && plan.limitPrice == -credit && plan.strategy == intent.strategy
  {
    hide Size, WidestWing, CreditLegs;
  }

  // ---- Strangles and single types -----------------------------------------

  lemma StranglePriced(intent: Intent, universe: seq<Contract>, state: SizingState, st: Settings, id: nat, m: Market)
    requires st.Valid() && intent.strategy == LongStrangle
    requires StranglePlan(intent, universe, state, st, id, m).Planned?
    ensures PricedOff(StranglePlan(intent, universe, state, st, id, m).plan, st.spreadNudgePct)
  {
    hide Best, StrangleOffer, InWindow, Expiries, FinishStrangle, PricedOff;
    var inWindow := InWindow(universe, intent, m.today);
    var call, put := BestStrangle(intent, inWindow, st, m);
    StrangleFinishPriced(intent, call, put, state, st, id);
  }

  lemma StrangleFinishPriced(intent: Intent, call: Pick, put: Pick, state: SizingState, st: Settings, id: nat)
    requires st.Valid() && intent.strategy == LongStrangle && FinishStrangle(intent, call, put, state, st, id).Planned?
    ensures PricedOff(FinishStrangle(intent, call, put, state, st, id).plan, st.spreadNudgePct)
  {
    hide Size, LiquidityRejection, LegsMid, LegsSpread;
    var c, p := call.contract, put.contract;
    assert c in [c, p] && p in [c, p];
    var a, b := MakeLeg(c, Buy, Some(call.delta)), MakeLeg(p, Buy, Some(put.delta));
    TwoLegsCost(a, b);
    OneLegCosts(a);
    OneLegCosts(b);
    assert FinishStrangle(intent, call, put, state, st, id).plan.legs == [a, b];
  }

  lemma FunnelFinishPriced(intent: Intent, primary: Contract, delta: Option<real>, partner: Option<Contract>,
                           partnerDelta: Option<real>, legs: seq<Leg>, state: SizingState, holding: Option<Holding>,
                           st: Settings, id: nat, m: Market)
    requires st.Valid() && IsFunnel(intent.strategy)
    requires Priced(primary) && primary.strike > 0.0
    requires partner.Some? <==> IsVertical(intent.strategy)
    requires partner.Some? ==> Priced(partner.value) && partner.value.strike != primary.strike
    requires legs == if partner.Some? then [MakeLeg(primary, Buy, delta), MakeLeg(partner.value, Sell, partnerDelta)]
                     else [MakeLeg(primary, if IsShortOnly(intent.strategy) then Sell else Buy, delta)]
    requires FinishFunnel(intent, primary, partner, legs, state, holding, st, id, m).Planned?
    ensures PricedOff(FinishFunnel(intent, primary, partner, legs, state, holding, st, id, m).plan, st.spreadNudgePct)
  {
    hide Size, RiskProfile, LegsMid, LegsSpread;
    OneLegCosts(legs[0]);
    if partner.Some? {
      OneLegCosts(legs[1]);
      TwoLegsCost(legs[0], legs[1]);
    }
    assert FinishFunnel(intent, primary, partner, legs, state, holding, st, id, m).plan.legs == legs;
  }

  lemma FunnelPriced(intent: Intent, universe: seq<Contract>, state: SizingState, holding: Option<Holding>,
                     st: Settings, id: nat, m: Market)
    requires st.Valid() && IsFunnel(intent.strategy)
    requires FunnelPlan(intent, universe, state, holding, st, id, m).Planned?
    ensures PricedOff(FunnelPlan(intent, universe, state, holding, st, id, m).plan, st.spreadNudgePct)
  {
    hide PricedOff, FinishFunnel, Secondary, Primary, LiquidityRejection;
    var candidates := InWindow(OfType(universe, FunnelType(intent.strategy)), intent, m.today);
    var pick := Primary(candidates, FunnelType(intent.strategy), intent, st, m).value;
    var primary, delta := pick.contract, Some(pick.delta);
    var first := MakeLeg(primary, if IsShortOnly(intent.strategy) then Sell else Buy, delta);
    if IsVertical(intent.strategy) {
      var partner := Secondary(intent, OfExpiry(candidates, primary.expiry), primary, st, m).0;
      var pd := EffectiveDelta(partner.value, m);
      FunnelFinishPriced(intent, primary, delta, partner, pd, [first, MakeLeg(partner.value, Sell, pd)],
                         state, holding, st, id, m);
    } else {
      FunnelFinishPriced(intent, primary, delta, None, None, [first], state, holding, st, id, m);
    }
  }

  /**
   * Whatever the strategy, a built plan pays the mid of its legs, bought less sold, plus the nudge's
   * share of the sum of their spreads; a credit or a sold option is the same payment, negative.
   */
  lemma PlanIsPricedOffItsLegs(intent: Intent, universe: seq<Contract>, state: SizingState, holding: Option<Holding>,
                               st: Settings, id: nat, m: Market)
    requires st.Valid() && PlanFor(intent, universe, state, holding, st, id, m).Planned?
    ensures var plan := PlanFor(intent, universe, state, holding, st, id, m).plan;
            && Quoted(plan.legs)
            && -CashIn(plan.strategy, plan.limitPrice) == LegsMid(plan.legs) + st.spreadNudgePct * LegsSpread(plan.legs)
  {
    hide StranglePlan, CreditPlan, FunnelPlan;
    var named := intent.(strategy := Canonical(intent.strategy));
    if named.strategy == LongStrangle {
      StranglePriced(named, universe, state, st, id, m);
    } else if IsCredit(named.strategy) {
      CreditPriced(named, universe, state, st, id, m);
    } else {
      FunnelPriced(named, universe, state, holding, st, id, m);
    }
  }
}
