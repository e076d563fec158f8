/** Closing a structure: a parent quantity, a ratio per leg, and opposite sides. */
module CloseOrders {
  import opened Models

  /** A held option leg from the positions cache; `qty` is `None` when it does not parse. */
  datatype HeldLeg = HeldLeg(symbol: string, long: bool, qty: Option<real>)

  datatype ClosingLeg = ClosingLeg(symbol: string, side: Side, ratio: nat)

  // ---- Greatest common divisors -------------------------------------------

  function Gcd(a: nat, b: nat): nat
    decreases b
  {
    if b == 0 then a else Gcd(b, a % b)
  }

  function Times(d: int, k: int): int { d * k }

  ghost predicate Divides(d: nat, n: int) { d > 0 && exists k :: Times(d, k) == n }

  lemma Multiple(d: nat, k: int)
    requires d > 0
    ensures Divides(d, d * k)
  {
    assert Times(d, k) == d * k;
  }

  lemma DividesAdd(d: nat, x: int, y: int)
    requires Divides(d, x) && Divides(d, y)
    ensures Divides(d, x + y) && Divides(d, x - y)
  {
    var p :| Times(d, p) == x;
    var q :| Times(d, q) == y;
    assert Times(d, p + q) == x + y && Times(d, p - q) == x - y;
  }

  lemma DividesScaled(d: nat, x: int, k: int)
    requires Divides(d, x)
    ensures Divides(d, x * k)
  {
    var p :| Times(d, p) == x;
    assert Times(d, p * k) == d * (p * k) == (d * p) * k;
  }

  lemma ProductAtLeast(d: nat, t: int)
    requires d > 0 && t >= 1
    ensures d * t >= d
  {
    assert d * t == d * (t - 1) + d;
    if t > 1 { ProductAtLeast(d, t - 1); }
  }

  /** Division by a divisor is exact. */
  lemma DivExact(d: nat, n: int)
    requires Divides(d, n)
    ensures d * (n / d) == n
  {
    var k :| Times(d, k) == n;
    var q, m := n / d, n % d;
    assert n == d * q + m;
    var t := k - q;
    assert d * t == m;
    if t >= 1 { ProductAtLeast(d, t); }
    if t <= -1 { ProductAtLeast(d, -t); }
  }

  /** The gcd divides both numbers, and every common divisor divides it. */
  lemma {:induction false} GcdIsGreatest(a: nat, b: nat)
    requires a > 0 || b > 0
    ensures Gcd(a, b) > 0 && Divides(Gcd(a, b), a) && Divides(Gcd(a, b), b)
    ensures forall d: nat :: Divides(d, a) && Divides(d, b) ==> Divides(d, Gcd(a, b))
    decreases b
  {
    if b == 0 {
      Multiple(a, 1);
      Multiple(a, 0);
    } else {
      var q, r := a / b, a % b;
      assert a == b * q + r;
      GcdIsGreatest(b, r);
      var g := Gcd(b, r);
      DividesScaled(g, b, q);
      DividesAdd(g, b * q, r);
      forall d: nat | Divides(d, a) && Divides(d, b) ensures Divides(d, g) {
        DividesScaled(d, b, q);
        DividesAdd(d, a, b * q);
      }
    }
  }

  function GcdAll(qs: seq<nat>): nat {
    if qs == [] then 0 else Gcd(GcdAll(qs[..|qs| - 1]), qs[|qs| - 1])
  }

  lemma {:induction false} GcdAllIsGreatest(qs: seq<nat>)
    requires qs != [] && forall q :: q in qs ==> q > 0
    ensures GcdAll(qs) > 0 && forall q :: q in qs ==> Divides(GcdAll(qs), q)
    ensures forall d: nat :: (forall q :: q in qs ==> Divides(d, q)) ==> Divides(d, GcdAll(qs))
  {
    hide Divides, Gcd;
    var front, last := qs[..|qs| - 1], qs[|qs| - 1];
    assert forall q :: q in qs <==> q in front || q == last;
    var g := GcdAll(front);
    assert last in qs && forall q :: q in front ==> q in qs;
    GcdIsGreatest(g, last);
    if front != [] {
      GcdAllIsGreatest(front);
      forall q | q in front ensures Divides(GcdAll(qs), q) {
        DivExact(g, q);
        DividesScaled(GcdAll(qs), g, q / g);
      }
    } else {
      forall d: nat | Divides(d, last) ensures Divides(d, 0) { DividesScaled(d, last, 0); }
    }
  }

  // ---- The closing order --------------------------------------------------

  /** `int()` of a number: truncation toward zero. */
  function Trunc(x: real): int { if x >= 0.0 then x.Floor else -((-x).Floor) }

  function AbsInt(n: int): nat { if n < 0 then -n else n }

  /** Contracts to close on a leg: at least one, and one when the quantity cannot be read. */
  function CloseQty(qty: Option<real>): (n: nat)
    ensures n >= 1
  {
    if qty.None? || AbsInt(Trunc(qty.value)) < 1 then 1 else AbsInt(Trunc(qty.value))
  }

  /** It is the whole contracts in the position, whichever way it is held, or one where there is not even that. */
  lemma CloseQtyIs(qty: real)
    ensures var n, held := CloseQty(Some(qty)), if qty < 0.0 then -qty else qty;
            if held < 1.0 then n == 1 else n as real <= held < n as real + 1.0
    ensures CloseQty(None) == 1
  {
    var held := if qty < 0.0 then -qty else qty;
    assert AbsInt(Trunc(qty)) == held.Floor;
    assert held.Floor as real <= held < held.Floor as real + 1.0;
  }

  function CloseQtys(legs: seq<HeldLeg>): (r: seq<nat>)
    ensures |r| == |legs| && forall i :: 0 <= i < |r| ==> r[i] == CloseQty(legs[i].qty)
  {
    seq(|legs|, i requires 0 <= i < |legs| => CloseQty(legs[i].qty))
  }

  /** The parent multiplier: the greatest common leg quantity. */
  function StructureQty(legs: seq<HeldLeg>): nat {
    if legs == [] then 1 else GcdAll(CloseQtys(legs))
  }

  method ClosingStructureQty(legs: seq<HeldLeg>) returns (n: nat)
    ensures n == StructureQty(legs)
    ensures legs == [] ==> n == 1
  {
    var quantities: seq<nat> := [];
    for i := 0 to |legs|
      invariant quantities == CloseQtys(legs)[..i]
    {
      quantities := quantities + [CloseQty(legs[i].qty)];
    }
    n := if quantities == [] then 1 else GcdAll(quantities);
    assert CloseQtys(legs)[..|legs|] == CloseQtys(legs);
  }

  function ClosingLegOf(leg: HeldLeg, parent: nat): ClosingLeg
    requires parent > 0
  {
    var ratio := CloseQty(leg.qty) / parent;
    ClosingLeg(leg.symbol, if leg.long then Sell else Buy, if ratio < 1 then 1 else ratio)
  }

  lemma StructureQtyPositive(legs: seq<HeldLeg>)
    ensures StructureQty(legs) > 0
  {
    if legs != [] { GcdAllIsGreatest(CloseQtys(legs)); }
  }

  method BuildClosingLegs(legs: seq<HeldLeg>) returns (result: seq<ClosingLeg>)
    ensures StructureQty(legs) > 0 && |result| == |legs|
    ensures forall i :: 0 <= i < |legs| ==> result[i] == ClosingLegOf(legs[i], StructureQty(legs))
  {
    StructureQtyPositive(legs);
    var parent := ClosingStructureQty(legs);
    result := [];
    for i := 0 to |legs|
      invariant |result| == i && forall j :: 0 <= j < i ==> result[j] == ClosingLegOf(legs[j], parent)
    {
      result := result + [ClosingLegOf(legs[i], parent)];
    }
  }

  // ---- It flattens the structure ------------------------------------------

  /** Every leg closes in exactly its quantity, and no smaller set of ratios would do. */
  lemma RatiosAreExactAndReduced(legs: seq<HeldLeg>)
    requires legs != []
    ensures var parent := StructureQty(legs);
            && parent > 0
            && (forall i :: 0 <= i < |legs| ==>
                  parent * ClosingLegOf(legs[i], parent).ratio == CloseQty(legs[i].qty))
            && GcdAll(Ratios(legs, parent)) == 1
  {
    var qs, parent := CloseQtys(legs), StructureQty(legs);
    GcdAllIsGreatest(qs);
    forall i | 0 <= i < |legs| ensures parent * ClosingLegOf(legs[i], parent).ratio == CloseQty(legs[i].qty) {
      assert qs[i] in qs;
      DivExact(parent, qs[i]);
    }
    ReducedRatios(legs);
  }

  function Ratios(legs: seq<HeldLeg>, parent: nat): (r: seq<nat>)
    requires parent > 0
    ensures |r| == |legs| && forall i :: 0 <= i < |r| ==> r[i] == ClosingLegOf(legs[i], parent).ratio >= 1
  {
    seq(|legs|, i requires 0 <= i < |legs| => ClosingLegOf(legs[i], parent).ratio)
  }

  lemma ReducedRatios(legs: seq<HeldLeg>)
    requires legs != []
    requires StructureQty(legs) > 0
    requires forall i :: 0 <= i < |legs| ==>
               StructureQty(legs) * ClosingLegOf(legs[i], StructureQty(legs)).ratio == CloseQty(legs[i].qty)
    ensures GcdAll(Ratios(legs, StructureQty(legs))) == 1
  {
    var qs, parent := CloseQtys(legs), StructureQty(legs);
    var ratios := Ratios(legs, parent);
    GcdAllIsGreatest(qs);
    GcdAllIsGreatest(ratios);
    hide Divides, GcdAll, ClosingLegOf, CloseQty;
    var h := GcdAll(ratios);
    forall q | q in qs ensures Divides(h * parent, q) {
      var i :| 0 <= i < |qs| && qs[i] == q;
      assert ratios[i] in ratios;
      ScaledDivisor(h, parent, ratios[i]);
    }
    OnlyOneFits(h, parent);
  }

  lemma ScaledDivisor(h: nat, parent: nat, ratio: nat)
    requires parent > 0 && Divides(h, ratio)
    ensures Divides(h * parent, parent * ratio)
  {
    var k :| Times(h, k) == ratio;
    assert Times(h * parent, k) == parent * (h * k);
    ProductAtLeast(parent, h);
  }

  lemma PositiveFactor(d: nat, k: int)
    requires Times(d, k) > 0
    ensures k >= 1
  {}

  lemma OnlyOneFits(h: nat, parent: nat)
    requires h > 0 && parent > 0 && Divides(h * parent, parent)
    ensures h == 1
  {
    var k :| Times(h * parent, k) == parent;
    PositiveFactor(h * parent, k);
    ProductAtLeast(h * parent, k);
    if h > 1 { ProductAtLeast(parent, h - 1); }
  }

  /** Signed contracts held on a leg. */
  function Held(leg: HeldLeg): real
    requires leg.qty.Some?
  {
    if leg.long then Abs(leg.qty.value) else -Abs(leg.qty.value)
  }

  /** Signed contracts a filled closing leg trades. */
  function Traded(leg: ClosingLeg, parent: nat): real {
    (if leg.side == Buy then 1.0 else -1.0) * (parent * leg.ratio) as real
  }

  predicate IsWhole(x: real) { x.Floor as real == x }

  /**
   * Filling the closing order leaves a leg flat exactly when the leg held a whole, non-zero number
   * of contracts: a zero quantity is closed as one contract, a fraction is left behind.
   */
  lemma CloseFlattensIff(legs: seq<HeldLeg>, i: nat)
    requires i < |legs| && legs[i].qty.Some?
    ensures var parent := StructureQty(legs);
            && parent > 0
            && (Held(legs[i]) + Traded(ClosingLegOf(legs[i], parent), parent) == 0.0
                <==> IsWhole(legs[i].qty.value) && legs[i].qty.value != 0.0)
            && (ClosingLegOf(legs[i], parent).side == Sell <==> legs[i].long)
  {
    RatiosAreExactAndReduced(legs);
    var parent := StructureQty(legs);
    var q := legs[i].qty.value;
    assert Traded(ClosingLegOf(legs[i], parent), parent)
        == if legs[i].long then -(CloseQty(Some(q)) as real) else CloseQty(Some(q)) as real;
    hide GcdAll;
    CloseQtyIsSize(q);
  }

  lemma CloseQtyIsSize(q: real)
    ensures CloseQty(Some(q)) as real == Abs(q) <==> IsWhole(q) && q != 0.0
  {
    WholeNegated(q);
  }

  lemma WholeNegated(q: real)
    ensures IsWhole(-q) <==> IsWhole(q)
  {
    if IsWhole(q) { assert -q == (-q.Floor) as real; }
    if IsWhole(-q) { assert q == (-(-q).Floor) as real; }
  }
}
