/** Portfolio Greeks: the open book's exposure, a plan's exposure, and their sum. */
module ExposureBook {
  import opened Models
  import opened Collections

  /** `None` means unknown, never zero. */
  datatype Exposure = Exposure(betaWeightedDelta: Option<real>, netVega: Option<real>, incompleteLegs: nat)
  {
    function CombinedWith(other: Exposure): Exposure {
      Exposure(Add(betaWeightedDelta, other.betaWeightedDelta), Add(netVega, other.netVega),
               incompleteLegs + other.incompleteLegs)
    }
  }

  function Add(left: Option<real>, right: Option<real>): Option<real> {
    if left.None? || right.None? then None else Some(left.value + right.value)
  }

  datatype Occ = Occ(underlying: string, expiry: int, optionType: OptionType, strike: real)

  /** A broker row; `qty` is signed and unreadable as `None`. */
  datatype Position = Position(symbol: string, isOption: bool, qty: Option<real>)

  /**
   * What both sides of the sum are measured against. The Black-Scholes delta and vega take
   * (spot, strike, days to expiry, vol) and stay abstract.
   */
  datatype Context = Context(
    today: int,
    parse: string -> Option<Occ>,
    beta: string -> real,
    market: map<string, (real, Option<real>)>,
    greeks: map<string, (Option<real>, Option<real>)>,
    bsDelta: (real, real, int, Option<real>, OptionType) -> Option<real>,
    bsVega: (real, real, int, Option<real>) -> Option<real>)

  // ---- The book -----------------------------------------------------------

  function SnapshotGreeks(symbol: string, ctx: Context): (Option<real>, Option<real>) {
    if symbol in ctx.greeks then ctx.greeks[symbol] else (None, None)
  }

  /** The delta a position is measured with: the live snapshot's, else the fallback when a spot is known. */
  function ResolvedDelta(symbol: string, occ: Occ, ctx: Context): Option<real> {
    var snap := SnapshotGreeks(symbol, ctx).0;
    if occ.underlying !in ctx.market then None
    else if snap.Some? then snap
    else
      var (spot, iv) := ctx.market[occ.underlying];
      ctx.bsDelta(spot, occ.strike, occ.expiry - ctx.today, iv, occ.optionType)
  }

  function ResolvedVega(symbol: string, occ: Occ, ctx: Context): Option<real> {
    var snap := SnapshotGreeks(symbol, ctx).1;
    if snap.Some? then snap
    else if occ.underlying !in ctx.market then None
    else
      var (spot, iv) := ctx.market[occ.underlying];
      ctx.bsVega(spot, occ.strike, occ.expiry - ctx.today, iv)
  }

  function Dollars(delta: real, quantity: real, spot: real, beta: real): real {
    delta * quantity * MULTIPLIER * spot * beta
  }

  /** Dollars per vol point of `quantity` contracts. */
  function VegaDollars(vega: real, quantity: real): real { vega * quantity }

  const FLAT := Exposure(Some(0.0), Some(0.0), 0)

  /** One known or unknown Greek pair as an exposure of its own. */
  function Single(delta: Option<real>, vega: Option<real>): Exposure {
    Exposure(delta, vega, (if delta.None? then 1 else 0) + (if vega.None? then 1 else 0))
  }

  function PositionExposure(p: Position, ctx: Context): Exposure {
    var occ := ctx.parse(p.symbol);
    if !p.isOption then FLAT
    else if occ.None? || p.qty.None? then Exposure(None, None, 1)
    else
      var delta := ResolvedDelta(p.symbol, occ.value, ctx);
      var vega := ResolvedVega(p.symbol, occ.value, ctx);
      Single(if delta.None? then None
             else Some(Dollars(delta.value, p.qty.value, ctx.market[occ.value.underlying].0, ctx.beta(occ.value.underlying))),
             if vega.None? then None else Some(VegaDollars(vega.value, p.qty.value)))
  }

  /** The book's exposure as the sum of its positions'. */
  function Total(positions: seq<Position>, ctx: Context): Exposure {
    if positions == [] then FLAT
    else Total(positions[..|positions| - 1], ctx).CombinedWith(PositionExposure(positions[|positions| - 1], ctx))
  }

  lemma {:induction false} TotalNext(positions: seq<Position>, i: nat, ctx: Context)
    requires i < |positions|
    ensures Total(positions[..i + 1], ctx) == Total(positions[..i], ctx).CombinedWith(PositionExposure(positions[i], ctx))
  {
    assert positions[..i + 1][..i] == positions[..i];
  }

  lemma {:induction false} EmptyTotals(ctx: Context, positions: seq<Position>)
    ensures Total(positions[..0], ctx) == FLAT
  {}

  method BookExposure(positions: seq<Position>, ctx: Context) returns (e: Exposure)
    ensures e == Total(positions, ctx)
  {
    hide Dollars, VegaDollars, Total;
    var dollarDelta, vega, missingDelta, missingVega := 0.0, 0.0, false, false;
    var incomplete: nat := 0;
    EmptyTotals(ctx, positions);
    for i := 0 to |positions|
      invariant Exposure(if missingDelta then None else Some(dollarDelta),
                         if missingVega then None else Some(vega), incomplete) == Total(positions[..i], ctx)
    {
      TotalNext(positions, i, ctx);
      var p := positions[i];
      if p.isOption {
        var parsed := ctx.parse(p.symbol);
        if parsed.None? || p.qty.None? {
          missingDelta, missingVega, incomplete := true, true, incomplete + 1;
        } else {
          var occ, quantity := parsed.value, p.qty.value;
          var (snapDelta, snapVega) := SnapshotGreeks(p.symbol, ctx);
          var known := occ.underlying in ctx.market;
          var delta, legVega := snapDelta, snapVega;
          if known {
            var (spot, iv) := ctx.market[occ.underlying];
            var dte := occ.expiry - ctx.today;
            if delta.None? { delta := ctx.bsDelta(spot, occ.strike, dte, iv, occ.optionType); }
            if legVega.None? { legVega := ctx.bsVega(spot, occ.strike, dte, iv); }
          }
          if delta.None? || !known {
            missingDelta, incomplete := true, incomplete + 1;
          } else {
            dollarDelta := dollarDelta
              + Dollars(delta.value, quantity, ctx.market[occ.underlying].0, ctx.beta(occ.underlying));
          }
          if legVega.None? {
            missingVega, incomplete := true, incomplete + 1;
          } else {
            vega := vega + VegaDollars(legVega.value, quantity);
          }
        }
      }
    }
    assert positions[..|positions|] == positions;
    e := Exposure(if missingDelta then None else Some(dollarDelta), if missingVega then None else Some(vega), incomplete);
  }

  // ---- The plan -----------------------------------------------------------

  /** Signed contracts of one leg once the plan has filled. */
  function Filled(leg: Leg, qty: nat): real {
    (if leg.side == Buy then 1.0 else -1.0) * leg.ratio as real * qty as real
  }

  function LegExposure(leg: Leg, plan: OrderPlan, spot: real, iv: Option<real>, ctx: Context): Exposure {
    var contracts := Filled(leg, plan.qty);
    var vega := ctx.bsVega(spot, leg.strike, leg.expiry - ctx.today, iv);
    Single(if leg.delta.None? then None else Some(Dollars(leg.delta.value, contracts, spot, ctx.beta(plan.underlying))),
           if vega.None? then None else Some(VegaDollars(vega.value, contracts)))
  }

  function PlanTotal(legs: seq<Leg>, plan: OrderPlan, spot: real, iv: Option<real>, ctx: Context): Exposure {
    if legs == [] then FLAT
    else PlanTotal(legs[..|legs| - 1], plan, spot, iv, ctx)
         .CombinedWith(LegExposure(legs[|legs| - 1], plan, spot, iv, ctx))
  }

  lemma {:induction false} PlanTotalNext(legs: seq<Leg>, i: nat, plan: OrderPlan, spot: real, iv: Option<real>,
                                        ctx: Context)
    requires i < |legs|
    ensures PlanTotal(legs[..i + 1], plan, spot, iv, ctx)
         == PlanTotal(legs[..i], plan, spot, iv, ctx).CombinedWith(LegExposure(legs[i], plan, spot, iv, ctx))
  {
    assert legs[..i + 1][..i] == legs[..i];
  }

  lemma {:induction false} EmptyPlanTotal(plan: OrderPlan, spot: real, iv: Option<real>, ctx: Context)
    ensures PlanTotal(plan.legs[..0], plan, spot, iv, ctx) == FLAT
  {}

  method PlanExposure(plan: OrderPlan, spot: real, iv: Option<real>, ctx: Context) returns (e: Exposure)
    ensures e == PlanTotal(plan.legs, plan, spot, iv, ctx)
  {
    hide Dollars, VegaDollars, Filled, PlanTotal;
    var beta := ctx.beta(plan.underlying);
    var dollarDelta, vega, missingDelta, missingVega := 0.0, 0.0, false, false;
    var incomplete: nat := 0;
    EmptyPlanTotal(plan, spot, iv, ctx);
    for i := 0 to |plan.legs|
      invariant Exposure(if missingDelta then None else Some(dollarDelta),
                         if missingVega then None else Some(vega), incomplete)
             == PlanTotal(plan.legs[..i], plan, spot, iv, ctx)
    {
      PlanTotalNext(plan.legs, i, plan, spot, iv, ctx);
      var leg := plan.legs[i];
      var contracts := Filled(leg, plan.qty);
      if leg.delta.None? {
        missingDelta, incomplete := true, incomplete + 1;
      } else {
        dollarDelta := dollarDelta + Dollars(leg.delta.value, contracts, spot, beta);
      }
      var legVega := ctx.bsVega(spot, leg.strike, leg.expiry - ctx.today, iv);
      if legVega.None? {
        missingVega, incomplete := true, incomplete + 1;
      } else {
        vega := vega + VegaDollars(legVega.value, contracts);
      }
    }
    assert plan.legs[..|plan.legs|] == plan.legs;
    e := Exposure(if missingDelta then None else Some(dollarDelta), if missingVega then None else Some(vega), incomplete);
  }

  // ---- The gate measures the book it will hold ----------------------------

  /** Unknown absorbs and counts add, so combining is associative. */
  lemma Associative(a: Exposure, b: Exposure, c: Exposure)
    ensures a.CombinedWith(b).CombinedWith(c) == a.CombinedWith(b.CombinedWith(c))
  {}

  lemma {:induction false} TotalLast(positions: seq<Position>, ctx: Context)
    requires positions != []
    ensures Total(positions, ctx)
         == Total(positions[..|positions| - 1], ctx).CombinedWith(PositionExposure(positions[|positions| - 1], ctx))
  {}

  lemma {:induction false} FlatIsNeutral(e: Exposure, ctx: Context)
    ensures e.CombinedWith(FLAT) == e && Total([], ctx) == FLAT
  {}

  lemma {:induction false} TotalSplits(a: seq<Position>, b: seq<Position>, ctx: Context)
    ensures Total(a + b, ctx) == Total(a, ctx).CombinedWith(Total(b, ctx))
    decreases |b|
  {
    hide *;
    if b == [] {
      assert a + b == a;
      FlatIsNeutral(Total(a, ctx), ctx);
    } else {
      var last := |b| - 1;
      assert (a + b)[..|a + b| - 1] == a + b[..last] && (a + b)[|a + b| - 1] == b[last];
      TotalLast(a + b, ctx);
      TotalLast(b, ctx);
      TotalSplits(a, b[..last], ctx);
      Associative(Total(a, ctx), Total(b[..last], ctx), PositionExposure(b[last], ctx));
    }
  }

  /** The order in which the broker lists its positions does not matter. */
  lemma {:induction false} TotalIgnoresOrder(a: seq<Position>, b: seq<Position>, ctx: Context)
    requires multiset(a) == multiset(b)
    ensures Total(a, ctx) == Total(b, ctx)
  {
    hide PositionExposure;
    if a == [] {
      assert |multiset(b)| == |b| == 0;
    } else {
      var k := TakeLast(a, b);
      var last, front, tail := b[k], b[..k], b[k + 1..];
      TotalIgnoresOrder(a[..|a| - 1], front + tail, ctx);
      RemoveOne(front, last, tail, ctx);
      assert b == front + [last] + tail;
    }
  }

  lemma {:induction false} RemoveOne(front: seq<Position>, p: Position, tail: seq<Position>, ctx: Context)
    ensures Total(front + [p] + tail, ctx) == Total(front + tail, ctx).CombinedWith(PositionExposure(p, ctx))
  {
    hide PositionExposure;
    TotalSplits(front + [p], tail, ctx);
    TotalSplits(front, [p], ctx);
    TotalSplits(front, tail, ctx);
    assert [p][..0] == [];
  }

  /** The rows the plan adds to the broker's list when it fills. */
  function FilledPositions(plan: OrderPlan): seq<Position> {
    seq(|plan.legs|, i requires 0 <= i < |plan.legs| =>
      Position(plan.legs[i].symbol, true, Some(Filled(plan.legs[i], plan.qty))))
  }

  /** The leg's symbol parses back to the leg, and both sides read the same Greeks for it. */
  predicate SameInputs(leg: Leg, plan: OrderPlan, spot: real, iv: Option<real>, ctx: Context) {
    var occ := Occ(plan.underlying, leg.expiry, leg.optionType, leg.strike);
    && ctx.parse(leg.symbol) == Some(occ)
    && plan.underlying in ctx.market && ctx.market[plan.underlying] == (spot, iv)
    && ResolvedDelta(leg.symbol, occ, ctx) == leg.delta
    && ResolvedVega(leg.symbol, occ, ctx) == ctx.bsVega(spot, leg.strike, leg.expiry - ctx.today, iv)
  }

  lemma {:induction false} PlanIsItsPositions(plan: OrderPlan, n: nat, spot: real, iv: Option<real>, ctx: Context)
    requires n <= |plan.legs|
    requires forall leg :: leg in plan.legs ==> SameInputs(leg, plan, spot, iv, ctx)
    ensures PlanTotal(plan.legs[..n], plan, spot, iv, ctx) == Total(FilledPositions(plan)[..n], ctx)
  {
    if n > 0 {
      hide Dollars, VegaDollars, Filled, PlanTotal, Total, SameInputs, PositionExposure, LegExposure;
      PlanIsItsPositions(plan, n - 1, spot, iv, ctx);
      PlanTotalNext(plan.legs, n - 1, plan, spot, iv, ctx);
      TotalNext(FilledPositions(plan), n - 1, ctx);
      assert plan.legs[n - 1] in plan.legs;
      LegIsItsPosition(plan.legs[n - 1], plan, spot, iv, ctx);
    }
  }

  lemma LegIsItsPosition(leg: Leg, plan: OrderPlan, spot: real, iv: Option<real>, ctx: Context)
    requires SameInputs(leg, plan, spot, iv, ctx)
    ensures PositionExposure(Position(leg.symbol, true, Some(Filled(leg, plan.qty))), ctx)
         == LegExposure(leg, plan, spot, iv, ctx)
  {
    hide Dollars, VegaDollars, Filled;
  }

  /**
   * The book's exposure combined with the plan's is the exposure of the book after the fill, in
   * whatever order the broker then lists it, unknown Greeks and incomplete counts included.
   */
  lemma {:induction false} ProjectedIsHeld(book: seq<Position>, plan: OrderPlan, held: seq<Position>,
                        spot: real, iv: Option<real>, ctx: Context)
    requires forall leg :: leg in plan.legs ==> SameInputs(leg, plan, spot, iv, ctx)
    requires multiset(held) == multiset(book + FilledPositions(plan))
    ensures Total(book, ctx).CombinedWith(PlanTotal(plan.legs, plan, spot, iv, ctx)) == Total(held, ctx)
  {
    var filled := FilledPositions(plan);
    PlanIsItsPositions(plan, |plan.legs|, spot, iv, ctx);
    assert plan.legs[..|plan.legs|] == plan.legs && filled[..|filled|] == filled;
    TotalSplits(book, filled, ctx);
    TotalIgnoresOrder(held, book + filled, ctx);
  }

  /** One unreadable position makes the whole book's figure unknown, and it is unknown for no other reason. */
  lemma {:induction false} UnknownAbsorbs(positions: seq<Position>, ctx: Context)
    ensures Total(positions, ctx).betaWeightedDelta.None?
       <==> exists p :: p in positions && PositionExposure(p, ctx).betaWeightedDelta.None?
    ensures Total(positions, ctx).netVega.None?
       <==> exists p :: p in positions && PositionExposure(p, ctx).netVega.None?
    ensures Total(positions, ctx).betaWeightedDelta.None? || Total(positions, ctx).netVega.None?
       <==> Total(positions, ctx).incompleteLegs > 0
  {
    hide Dollars, VegaDollars;
    if positions != [] {
      var front, last := positions[..|positions| - 1], positions[|positions| - 1];
      UnknownAbsorbs(front, ctx);
      assert forall p :: p in positions <==> p in front || p == last;
    }
  }

  // ---- A broker that nets -------------------------------------------------

  /** Two readable option rows on one symbol. */
  predicate SameContract(p: Position, q: Position) {
    p.isOption && q.isOption && p.symbol == q.symbol && p.qty.Some? && q.qty.Some?
  }

  /** They become one row of the summed quantity, or none when that is nil. */
  function Merged(p: Position, q: Position): seq<Position>
    requires SameContract(p, q)
  {
    var qty := p.qty.value + q.qty.value;
    if qty == 0.0 then [] else [p.(qty := Some(qty))]
  }

  function NetInto(rows: seq<Position>, p: Position): seq<Position> {
    if rows == [] then [p]
    else
      var front, last := rows[..|rows| - 1], rows[|rows| - 1];
      if SameContract(last, p) then front + Merged(last, p) else NetInto(front, p) + [last]
  }

  /** The book once each added row has been netted against the row held on its symbol. */
  function NetAll(rows: seq<Position>, added: seq<Position>): seq<Position> {
    if added == [] then rows else NetInto(NetAll(rows, added[..|added| - 1]), added[|added| - 1])
  }

  /** What is known of `a` is the same in `b`, and `b` counts no more as incomplete. */
  predicate Settles(a: Exposure, b: Exposure) {
    && (a.betaWeightedDelta.Some? ==> b.betaWeightedDelta == a.betaWeightedDelta)
    && (a.netVega.Some? ==> b.netVega == a.netVega)
    && b.incompleteLegs <= a.incompleteLegs
  }

  lemma SettlesBeside(x: Exposure, a: Exposure, b: Exposure)
    requires Settles(a, b)
    ensures Settles(x.CombinedWith(a), x.CombinedWith(b)) && Settles(a.CombinedWith(x), b.CombinedWith(x))
  {}

  lemma DollarsAdd(delta: real, p: real, q: real, spot: real, beta: real)
    ensures Dollars(delta, p, spot, beta) + Dollars(delta, q, spot, beta) == Dollars(delta, p + q, spot, beta)
    ensures Dollars(delta, 0.0, spot, beta) == 0.0
  {
    var unit := delta * MULTIPLIER * spot * beta;
    assert Dollars(delta, p, spot, beta) == p * unit && Dollars(delta, q, spot, beta) == q * unit;
    assert Dollars(delta, p + q, spot, beta) == (p + q) * unit;
  }

  lemma VegaAdds(vega: real, p: real, q: real)
    ensures VegaDollars(vega, p) + VegaDollars(vega, q) == VegaDollars(vega, p + q) && VegaDollars(vega, 0.0) == 0.0
  {}

  lemma DeltaNeedsSpot(symbol: string, occ: Occ, ctx: Context)
    requires ResolvedDelta(symbol, occ, ctx).Some?
    ensures occ.underlying in ctx.market
  {}

  lemma QuantitiesAdd(p: Position, q: Position, ctx: Context)
    requires SameContract(p, q)
    ensures var both := PositionExposure(p, ctx).CombinedWith(PositionExposure(q, ctx));
            && Settles(both, PositionExposure(p.(qty := Some(p.qty.value + q.qty.value)), ctx))
            && (p.qty.value + q.qty.value == 0.0 ==> Settles(both, FLAT))
  {
    hide Dollars, VegaDollars, ResolvedDelta, ResolvedVega;
    var occ := ctx.parse(p.symbol);
    if occ.Some? {
      var delta, vega := ResolvedDelta(p.symbol, occ.value, ctx), ResolvedVega(p.symbol, occ.value, ctx);
      if delta.Some? {
        DeltaNeedsSpot(p.symbol, occ.value, ctx);
        var spot, beta := ctx.market[occ.value.underlying].0, ctx.beta(occ.value.underlying);
        DollarsAdd(delta.value, p.qty.value, q.qty.value, spot, beta);
      }
      if vega.Some? { VegaAdds(vega.value, p.qty.value, q.qty.value); }
    }
  }

  lemma {:induction false} MergedSettles(p: Position, q: Position, ctx: Context)
    requires SameContract(p, q)
    ensures Settles(PositionExposure(p, ctx).CombinedWith(PositionExposure(q, ctx)), Total(Merged(p, q), ctx))
  {
    hide PositionExposure, Settles;
    QuantitiesAdd(p, q, ctx);
    OneRow(p.(qty := Some(p.qty.value + q.qty.value)), ctx);
  }

  lemma {:induction false} OneRow(p: Position, ctx: Context)
    ensures Total([p], ctx) == PositionExposure(p, ctx)
  {
    hide PositionExposure;
    assert [p][..0] == [];
  }

  lemma {:induction false} NetIntoSettles(rows: seq<Position>, p: Position, ctx: Context)
    ensures Settles(Total(rows + [p], ctx), Total(NetInto(rows, p), ctx))
  {
    hide PositionExposure, Total, Settles, Merged;
    if rows == [] {
      SettlesItself(Total([p], ctx));
      assert rows + [p] == [p];
    } else {
      var front, last := rows[..|rows| - 1], rows[|rows| - 1];
      assert rows == front + [last];
      assert rows + [p] == front + ([last] + [p]);
      if SameContract(last, p) {
        MergedSettles(last, p, ctx);
        TotalSplits(front, [last] + [p], ctx);
        TotalSplits([last], [p], ctx);
        OneRow(last, ctx);
        OneRow(p, ctx);
        TotalSplits(front, Merged(last, p), ctx);
        SettlesBeside(Total(front, ctx), Total([last] + [p], ctx), Total(Merged(last, p), ctx));
      } else {
        NetIntoSettles(front, p, ctx);
        TotalSplits(front + [p], [last], ctx);
        TotalSplits(NetInto(front, p), [last], ctx);
        SettlesBeside(Total([last], ctx), Total(front + [p], ctx), Total(NetInto(front, p), ctx));
        TotalIgnoresOrder(rows + [p], front + [p] + [last], ctx);
      }
    }
  }

  lemma SettlesItself(a: Exposure)
    ensures Settles(a, a)
  {}

  lemma SettlesOnwards(a: Exposure, b: Exposure, c: Exposure)
    requires Settles(a, b) && Settles(b, c)
    ensures Settles(a, c)
  {}

  lemma {:induction false} NetAllSettles(rows: seq<Position>, added: seq<Position>, ctx: Context)
    ensures Settles(Total(rows + added, ctx), Total(NetAll(rows, added), ctx))
  {
    hide PositionExposure, Total, Settles, NetInto;
    if added == [] {
      assert rows + added == rows;
      SettlesItself(Total(rows, ctx));
    } else {
      var front, last := added[..|added| - 1], added[|added| - 1];
      assert rows + added == rows + front + [last];
      NetAllSettles(rows, front, ctx);
      NetIntoSettles(NetAll(rows, front), last, ctx);
      TotalSplits(rows + front, [last], ctx);
      TotalSplits(NetAll(rows, front), [last], ctx);
      SettlesBeside(Total([last], ctx), Total(rows + front, ctx), Total(NetAll(rows, front), ctx));
      SettlesOnwards(Total(rows + added, ctx), Total(NetAll(rows, front) + [last], ctx), Total(NetAll(rows, added), ctx));
    }
  }

  /**
   * A broker that nets what fills against what is held, dropping rows netted to nil, shows every
   * Greek the projection knew, unchanged; with nothing unknown it shows the projection itself.
   */
  lemma {:induction false} ProjectedIsNetted(book: seq<Position>, plan: OrderPlan, held: seq<Position>,
                          spot: real, iv: Option<real>, ctx: Context)
    requires forall leg :: leg in plan.legs ==> SameInputs(leg, plan, spot, iv, ctx)
    requires multiset(held) == multiset(NetAll(book, FilledPositions(plan)))
    ensures var projected := Total(book, ctx).CombinedWith(PlanTotal(plan.legs, plan, spot, iv, ctx));
            && Settles(projected, Total(held, ctx))
            && (projected.incompleteLegs == 0 ==> Total(held, ctx) == projected)
  {
    hide PositionExposure, Total, NetAll, PlanTotal;
    var all := book + FilledPositions(plan);
    ProjectedIsHeld(book, plan, all, spot, iv, ctx);
    NetAllSettles(book, FilledPositions(plan), ctx);
    TotalIgnoresOrder(held, NetAll(book, FilledPositions(plan)), ctx);
    UnknownAbsorbs(all, ctx);
  }

  /** A row of unknown delta that is closed out is unknown to the projection and gone from the netted book. */
  lemma {:induction false} NettingForgetsUnknowns(row: Position, ctx: Context)
    requires row.isOption && row.qty.Some? && PositionExposure(row, ctx).betaWeightedDelta.None?
    ensures var closing := row.(qty := Some(-row.qty.value));
            && Total([row] + [closing], ctx).betaWeightedDelta.None? && Total(NetAll([row], [closing]), ctx) == FLAT
  {
    var closing := row.(qty := Some(-row.qty.value));
    hide PositionExposure;
    OneRow(row, ctx);
    TotalSplits([row], [closing], ctx);
    assert [row][..0] == [] && [closing][..0] == [] && NetInto([row], closing) == [] + [];
  }

  // ---- What the figures are worth -----------------------------------------

  /**
   * A delta of one in one contract is a hundred shares at spot, weighted by beta, and the figure is
   * proportional to the delta, the contracts, the spot and the beta; vega is proportional to the contracts.
   */
  lemma DollarsAreShares(delta: real, quantity: real, spot: real, beta: real, k: real)
    ensures Dollars(1.0, 1.0, spot, 1.0) == 100.0 * spot
    ensures Dollars(k * delta, quantity, spot, beta) == k * Dollars(delta, quantity, spot, beta)
    ensures Dollars(delta, k * quantity, spot, beta) == k * Dollars(delta, quantity, spot, beta)
    ensures Dollars(delta, quantity, k * spot, beta) == k * Dollars(delta, quantity, spot, beta)
    ensures Dollars(delta, quantity, spot, k * beta) == k * Dollars(delta, quantity, spot, beta)
    ensures VegaDollars(delta, 1.0) == delta && VegaDollars(delta, k * quantity) == k * VegaDollars(delta, quantity)
  {
    Scale(delta, quantity, spot, beta, k);
  }

  lemma Scale(d: real, q: real, s: real, b: real, k: real)
    ensures (k * d) * q * MULTIPLIER * s * b == k * (d * q * MULTIPLIER * s * b)
    ensures d * (k * q) * MULTIPLIER * s * b == k * (d * q * MULTIPLIER * s * b)
    ensures d * q * MULTIPLIER * (k * s) * b == k * (d * q * MULTIPLIER * s * b)
    ensures d * q * MULTIPLIER * s * (k * b) == k * (d * q * MULTIPLIER * s * b)
    ensures d * (k * q) == k * (d * q)
  {
    assert (k * d) * q == k * (d * q) && d * (k * q) == k * (d * q);
    var x := d * q;
    assert (k * x) * MULTIPLIER == k * (x * MULTIPLIER);
    var y := x * MULTIPLIER;
    assert (k * y) * s == k * (y * s) && y * (k * s) == k * (y * s);
    var z := y * s;
    assert (k * z) * b == k * (z * b) && z * (k * b) == k * (z * b);
  }

  /**
   * The live snapshot's Greek wins; the fallback is asked for only without one and only with a spot.
   * A delta needs the spot either way, and the two Greeks are known or unknown apart.
   */
  lemma PositionGreeks(p: Position, occ: Occ, ctx: Context)
    requires p.isOption && p.qty.Some? && ctx.parse(p.symbol) == Some(occ)
    ensures var live := p.symbol in ctx.greeks;
            var delta := if live then ctx.greeks[p.symbol].0 else None;
            var vega := if live then ctx.greeks[p.symbol].1 else None;
            var known, e := occ.underlying in ctx.market, PositionExposure(p, ctx);
            && (!known ==> e.betaWeightedDelta.None?)
            && (known && delta.Some? ==>
                  e.betaWeightedDelta
                  == Some(Dollars(delta.value, p.qty.value, ctx.market[occ.underlying].0, ctx.beta(occ.underlying))))
            && (vega.Some? ==> e.netVega == Some(VegaDollars(vega.value, p.qty.value)))
            && (vega.None? && !known ==> e.netVega.None?)
            && (known ==>
                  var (spot, iv) := ctx.market[occ.underlying];
                  var days := occ.expiry - ctx.today;
                  && (delta.None? ==>
                        var bs := ctx.bsDelta(spot, occ.strike, days, iv, occ.optionType);
                        e.betaWeightedDelta == if bs.None? then None
                                               else Some(Dollars(bs.value, p.qty.value, spot, ctx.beta(occ.underlying))))
                  && (vega.None? ==>
                        var bs := ctx.bsVega(spot, occ.strike, days, iv);
                        e.netVega == if bs.None? then None else Some(VegaDollars(bs.value, p.qty.value))))
            && e.incompleteLegs == (if e.betaWeightedDelta.None? then 1 else 0) + (if e.netVega.None? then 1 else 0)
  {
    hide Dollars, VegaDollars;
  }

  /** Shares are no option exposure; an unreadable option row leaves both Greeks unknown and counts once. */
  lemma OtherRows(p: Position, ctx: Context)
    ensures !p.isOption ==> PositionExposure(p, ctx) == Exposure(Some(0.0), Some(0.0), 0)
    ensures p.isOption && (ctx.parse(p.symbol).None? || p.qty.None?) ==> PositionExposure(p, ctx) == Exposure(None, None, 1)
  {}

  /**
   * A leg is exposed with its ratio for every contract of the plan, long when bought and as much the other
   * way when sold; without its own delta, or a vega from the model, that Greek is unknown.
   */
  lemma LegGreeks(leg: Leg, plan: OrderPlan, spot: real, iv: Option<real>, ctx: Context)
    ensures var e, beta := LegExposure(leg, plan, spot, iv, ctx), ctx.beta(plan.underlying);
            var contracts := leg.ratio as real * plan.qty as real;
            var vega := ctx.bsVega(spot, leg.strike, leg.expiry - ctx.today, iv);
            && (leg.delta.None? <==> e.betaWeightedDelta.None?) && (vega.None? <==> e.netVega.None?)
            && (leg.delta.Some? ==>
                  var dollars := Dollars(leg.delta.value, contracts, spot, beta);
                  e.betaWeightedDelta == Some(if leg.side == Buy then dollars else -dollars))
            && (vega.Some? ==>
                  var dollars := VegaDollars(vega.value, contracts);
                  e.netVega == Some(if leg.side == Buy then dollars else -dollars))
            && e.incompleteLegs == (if leg.delta.None? then 1 else 0) + (if vega.None? then 1 else 0)
  {
    var contracts := leg.ratio as real * plan.qty as real;
    assert Filled(leg, plan.qty) == if leg.side == Buy then contracts else -contracts;
    if leg.delta.Some? { Flipped(leg.delta.value, contracts, spot, ctx.beta(plan.underlying)); }
    var vega := ctx.bsVega(spot, leg.strike, leg.expiry - ctx.today, iv);
    if vega.Some? { assert VegaDollars(vega.value, -contracts) == -VegaDollars(vega.value, contracts); }
    hide Filled, Dollars, VegaDollars;
  }

  lemma Flipped(delta: real, contracts: real, spot: real, beta: real)
    ensures Dollars(delta, -contracts, spot, beta) == -Dollars(delta, contracts, spot, beta)
  {
    DollarsAreShares(delta, contracts, spot, beta, -1.0);
    assert -1.0 * contracts == -contracts;
  }
}
