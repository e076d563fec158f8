/**
 * Expiry profit and loss of a finished plan, as a function of the underlying's price.
 * Nothing here looks at how the builder computed `maxLoss`: the payoff comes from the legs alone.
 */
module Payoff {
  import opened Models
  import opened Sizing
  import opened Selection
  import opened StrategyBuilder

  function Intrinsic(leg: Leg, price: real): real {
    if leg.optionType == Call then Max(price - leg.strike, 0.0) else Max(leg.strike - price, 0.0)
  }

  /** What the legs of one unit are worth at expiry, per share. */
  function LegsValue(legs: seq<Leg>, price: real): real {
    if legs == [] then 0.0
    else
      (if legs[0].side == Buy then 1.0 else -1.0) * legs[0].ratio as real * Intrinsic(legs[0], price)
      + LegsValue(legs[1..], price)
  }

  /** Cash taken in when one unit opens, per share: multi-leg credits are negative limits, a lone short leg sells. */
  function CashIn(strategy: Strategy, limitPrice: real): real {
    if IsShortOnly(strategy) then limitPrice else -limitPrice
  }

  /** One unit held to expiry, in dollars, with a covered call's hundred shares bought at `spot`. */
  function UnitPnl(strategy: Strategy, legs: seq<Leg>, limitPrice: real, spot: real, price: real): real {
    (LegsValue(legs, price) + CashIn(strategy, limitPrice)
     + (if strategy == CoveredCall then price - spot else 0.0)) * MULTIPLIER
  }

  /** The whole plan held to expiry, in dollars. */
  function Pnl(plan: OrderPlan, spot: real, price: real): real {
    UnitPnl(plan.strategy, plan.legs, plan.limitPrice, spot, price) * plan.qty as real
  }

  // ---- One unit ---------------------------------------------------------

  /** The profile bounds one unit at every price. */
  ghost predicate Bounds(strategy: Strategy, legs: seq<Leg>, limitPrice: real, spot: real, p: Profile) {
    forall price | price >= 0.0 ::
      && -p.maxLoss <= UnitPnl(strategy, legs, limitPrice, spot, price)
      && (p.maxProfit.Some? ==> UnitPnl(strategy, legs, limitPrice, spot, price) <= p.maxProfit.value)
  }

  /** Some reachable price loses exactly `maxLoss`. */
  ghost predicate LossAttained(strategy: Strategy, legs: seq<Leg>, limitPrice: real, spot: real, p: Profile) {
    exists price :: price >= 0.0 && UnitPnl(strategy, legs, limitPrice, spot, price) == -p.maxLoss
  }

  ghost predicate ProfitAttained(strategy: Strategy, legs: seq<Leg>, limitPrice: real, spot: real, p: Profile) {
    p.maxProfit.Some? ==>
      exists price :: price >= 0.0 && UnitPnl(strategy, legs, limitPrice, spot, price) == p.maxProfit.value
  }

  ghost predicate BreaksEven(strategy: Strategy, legs: seq<Leg>, limitPrice: real, spot: real, p: Profile) {
    p.breakeven.Some? ==> UnitPnl(strategy, legs, limitPrice, spot, p.breakeven.value) == 0.0
  }

  lemma {:induction false} OneLeg(leg: Leg, price: real)
    requires leg.ratio == 1
    ensures LegsValue([leg], price) == if leg.side == Buy then Intrinsic(leg, price) else -Intrinsic(leg, price)
  {
    assert [leg][1..] == [];
  }

  lemma {:induction false} ConsLeg(leg: Leg, rest: seq<Leg>, price: real)
    requires leg.ratio == 1
    ensures LegsValue([leg] + rest, price)
         == (if leg.side == Buy then Intrinsic(leg, price) else -Intrinsic(leg, price)) + LegsValue(rest, price)
  {
    assert ([leg] + rest)[1..] == rest;
  }

  /** A short leg and a wing further out of the money: worth between minus the width and nothing. */
  lemma {:induction false} VerticalValue(v: Vertical, t: OptionType, rest: seq<Leg>, price: real)
    requires v.short.optionType == t && v.long.optionType == t
    requires if t == Put then v.long.strike < v.short.strike else v.short.strike < v.long.strike
    ensures var legs := [MakeLeg(v.short, Sell, v.shortDelta), MakeLeg(v.long, Buy, v.longDelta)];
            var value := LegsValue(legs + rest, price) - LegsValue(rest, price);
            && -v.Width() <= value <= 0.0
            && (if t == Put then price >= v.short.strike ==> value == 0.0
                else price <= v.short.strike ==> value == 0.0)
            && (if t == Put then price <= v.long.strike ==> value == -v.Width()
                else price >= v.long.strike ==> value == -v.Width())
            && (if t == Put then v.long.strike <= price <= v.short.strike ==> value == price - v.short.strike
                else v.short.strike <= price <= v.long.strike ==> value == v.short.strike - price)
  {
    var short, long := MakeLeg(v.short, Sell, v.shortDelta), MakeLeg(v.long, Buy, v.longDelta);
    assert [short, long] + rest == [short] + ([long] + rest);
    ConsLeg(short, [long] + rest, price);
    ConsLeg(long, rest, price);
  }

  /** The legs of an assembled credit structure lose at most the widest wing, and on one side only. */
  lemma {:induction false} CreditLegsValue(strategy: Strategy, vs: seq<Vertical>, cs: seq<Contract>, price: real)
    requires Assembled(strategy, vs, cs)
    ensures vs != [] && -WidestWing(vs) <= LegsValue(CreditLegs(vs), price) <= 0.0
    ensures price == vs[0].short.strike ==> LegsValue(CreditLegs(vs), price) == 0.0
    ensures forall v :: v in vs && price == v.long.strike ==> LegsValue(CreditLegs(vs), price) == -v.Width()
  {
    assert vs[0] in vs;
    var t := vs[0].short.optionType;
    var rest := CreditLegs(vs[1..]);
    VerticalValue(vs[0], t, rest, price);
    if |vs| == 1 {
      assert rest == [];
    } else {
      assert vs[1] in vs;
      assert vs[1..][1..] == [] && CreditLegs(vs[1..][1..]) == [];
      VerticalValue(vs[1], Call, [], price);
      assert rest == [MakeLeg(vs[1].short, Sell, vs[1].shortDelta), MakeLeg(vs[1].long, Buy, vs[1].longDelta)] + [];
    }
  }

  lemma {:induction false} CreditUnit(strategy: Strategy, vs: seq<Vertical>, cs: seq<Contract>, credit: real,
                                      spot: real)
    requires IsCredit(strategy) && Assembled(strategy, vs, cs)
    requires forall v :: v in vs ==> v.short.strike > 0.0 && v.long.strike > 0.0
    requires 0.0 < credit < WidestWing(vs)
    ensures var p := Profile((WidestWing(vs) - credit) * MULTIPLIER, Some(credit * MULTIPLIER),
                             CreditBreakeven(strategy, vs[0].short.strike, credit));
            && Bounds(strategy, CreditLegs(vs), -credit, spot, p)
            && LossAttained(strategy, CreditLegs(vs), -credit, spot, p)
            && ProfitAttained(strategy, CreditLegs(vs), -credit, spot, p)
            && BreaksEven(strategy, CreditLegs(vs), -credit, spot, p)
  {
    hide LegsValue, CreditLegs;
    var legs := CreditLegs(vs);
    var widest :| widest in vs && widest.Width() == WidestWing(vs);
    forall price | price >= 0.0
      ensures -WidestWing(vs) <= LegsValue(legs, price) <= 0.0
    {
      CreditLegsValue(strategy, vs, cs, price);
    }
    CreditLegsValue(strategy, vs, cs, widest.long.strike);
    assert UnitPnl(strategy, legs, -credit, spot, widest.long.strike) == -((WidestWing(vs) - credit) * MULTIPLIER);
    assert vs[0] in vs;
    CreditLegsValue(strategy, vs, cs, vs[0].short.strike);
    assert UnitPnl(strategy, legs, -credit, spot, vs[0].short.strike) == credit * MULTIPLIER;
    CreditVerticalBreaksEven(strategy, vs, cs, credit);
  }

  lemma {:induction false} CreditVerticalBreaksEven(strategy: Strategy, vs: seq<Vertical>, cs: seq<Contract>,
                                        credit: real)
    requires IsCredit(strategy) && Assembled(strategy, vs, cs)
    requires 0.0 < credit < WidestWing(vs)
    ensures var b := CreditBreakeven(strategy, vs[0].short.strike, credit);
            b.Some? ==> LegsValue(CreditLegs(vs), b.value) == -credit
  {
    if |vs| == 1 {
      var v := vs[0];
      assert CreditLegs(vs[1..]) == [];
      VerticalValue(v, v.short.optionType, [], if v.short.optionType == Put then v.short.strike - credit
                                               else v.short.strike + credit);
    }
  }

  /** A debit vertical whose short leg lies strictly out of the money of its long leg. */
  lemma DebitUnit(strategy: Strategy, long: Contract, short: Contract, dl: Option<real>, ds: Option<real>,
                  entry: real, spot: real)
    requires IsVertical(strategy)
    requires long.optionType == short.optionType == FunnelType(strategy)
    requires if strategy == DebitCallSpread then long.strike < short.strike else short.strike < long.strike
    requires long.strike > 0.0 && short.strike > 0.0
    requires 0.0 < entry < Abs(long.strike - short.strike)
    ensures var legs := [MakeLeg(long, Buy, dl), MakeLeg(short, Sell, ds)];
            var p := Profile(entry * MULTIPLIER, Some((Abs(long.strike - short.strike) - entry) * MULTIPLIER),
                             Some(if strategy == DebitCallSpread then long.strike + entry else long.strike - entry));
            && Bounds(strategy, legs, entry, spot, p)
            && LossAttained(strategy, legs, entry, spot, p)
            && ProfitAttained(strategy, legs, entry, spot, p)
            && BreaksEven(strategy, legs, entry, spot, p)
  {
    hide LegsValue;
    var a, b := MakeLeg(long, Buy, dl), MakeLeg(short, Sell, ds);
    var legs := [a, b];
    assert legs == [a] + [b];
    forall price ensures LegsValue(legs, price) == Intrinsic(a, price) - Intrinsic(b, price) {
      ConsLeg(a, [b], price);
      OneLeg(b, price);
    }
    assert UnitPnl(strategy, legs, entry, spot, long.strike) == -(entry * MULTIPLIER);
    assert UnitPnl(strategy, legs, entry, spot, short.strike) == (Abs(long.strike - short.strike) - entry) * MULTIPLIER;
  }

  /** A bought option: the debit is the most it can lose, and no profit is promised. */
  lemma LongUnit(strategy: Strategy, c: Contract, d: Option<real>, entry: real, spot: real)
    requires (strategy == LongCall || strategy == LongPut) && c.optionType == FunnelType(strategy)
    requires c.strike > 0.0
    ensures var legs := [MakeLeg(c, Buy, d)];
            var p := Profile(entry * MULTIPLIER, None,
                             Some(if strategy == LongCall then c.strike + entry else c.strike - entry));
            && Bounds(strategy, legs, entry, spot, p)
            && LossAttained(strategy, legs, entry, spot, p)
            && (entry > 0.0 ==> BreaksEven(strategy, legs, entry, spot, p))
  {
    hide LegsValue;
    var a := MakeLeg(c, Buy, d);
    forall price ensures LegsValue([a], price) == Intrinsic(a, price) { OneLeg(a, price); }
    assert UnitPnl(strategy, [a], entry, spot, c.strike) == -(entry * MULTIPLIER);
  }

  lemma StrangleUnit(call: Contract, put: Contract, dc: Option<real>, dp: Option<real>, entry: real, spot: real)
    requires call.optionType == Call && put.optionType == Put
    requires 0.0 < put.strike < call.strike
    ensures var legs := [MakeLeg(call, Buy, dc), MakeLeg(put, Buy, dp)];
            var p := Profile(entry * MULTIPLIER, None, None);
            && Bounds(LongStrangle, legs, entry, spot, p)
            && LossAttained(LongStrangle, legs, entry, spot, p)
  {
    hide LegsValue;
    var a, b := MakeLeg(call, Buy, dc), MakeLeg(put, Buy, dp);
    assert [a, b] == [a] + [b];
    forall price ensures LegsValue([a, b], price) == Intrinsic(a, price) + Intrinsic(b, price) {
      ConsLeg(a, [b], price);
      OneLeg(b, price);
    }
    assert UnitPnl(LongStrangle, [a, b], entry, spot, call.strike) == -(entry * MULTIPLIER);
  }

  lemma CashSecuredPutUnit(c: Contract, d: Option<real>, entry: real, spot: real)
    requires c.optionType == Put && c.strike > 0.0 && entry <= c.strike
    ensures var legs := [MakeLeg(c, Sell, d)];
            var p := Profile((c.strike - entry) * MULTIPLIER, Some(entry * MULTIPLIER), Some(c.strike - entry));
            && Bounds(CashSecuredPut, legs, entry, spot, p)
            && LossAttained(CashSecuredPut, legs, entry, spot, p)
            && ProfitAttained(CashSecuredPut, legs, entry, spot, p)
            && (entry >= 0.0 ==> BreaksEven(CashSecuredPut, legs, entry, spot, p))
  {
    hide LegsValue;
    var a := MakeLeg(c, Sell, d);
    forall price ensures LegsValue([a], price) == -Intrinsic(a, price) { OneLeg(a, price); }
    assert UnitPnl(CashSecuredPut, [a], entry, spot, 0.0) == -((c.strike - entry) * MULTIPLIER);
    assert UnitPnl(CashSecuredPut, [a], entry, spot, c.strike) == entry * MULTIPLIER;
  }

  function CoveredCallProfit(strike: real, spot: real, entry: real): real {
    if strike > spot then (strike - spot) * MULTIPLIER + entry * MULTIPLIER else entry * MULTIPLIER
  }

  /** Written against a share position: the stated best case is reachable only from a strike at or above spot. */
  lemma CoveredCallUnit(c: Contract, d: Option<real>, entry: real, spot: real)
    requires c.optionType == Call && c.strike > 0.0
    ensures var legs := [MakeLeg(c, Sell, d)];
            var p := Profile((spot - entry) * MULTIPLIER, Some(CoveredCallProfit(c.strike, spot, entry)), Some(spot - entry));
            && Bounds(CoveredCall, legs, entry, spot, p)
            && LossAttained(CoveredCall, legs, entry, spot, p)
            && (ProfitAttained(CoveredCall, legs, entry, spot, p) <==> spot <= c.strike)
            && (BreaksEven(CoveredCall, legs, entry, spot, p) <==> spot - entry <= c.strike)
  {
    hide LegsValue;
    var a := MakeLeg(c, Sell, d);
    forall price ensures LegsValue([a], price) == -Intrinsic(a, price) { OneLeg(a, price); }
    assert UnitPnl(CoveredCall, [a], entry, spot, 0.0) == -((spot - entry) * MULTIPLIER);
    if spot <= c.strike {
      assert UnitPnl(CoveredCall, [a], entry, spot, c.strike) == CoveredCallProfit(c.strike, spot, entry);
    }
  }
}
