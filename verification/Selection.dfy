/** Choosing real contracts for an intent: ladders, nearest strikes, deltas and credit verticals. */
module Selection {
  import opened Models
  import opened Collections

  /**
   * What the builder reads besides the chain. `blackScholes` is the delta solved for a contract
   * that carries none, `rootYears` the square root of a day count in years, and `monthly` says
   * whether a day is a standard monthly expiry; the first two are transcendental and stay abstract.
   */
  datatype Market = Market(
    spot: real, today: int,
    blackScholes: Contract -> Option<real>, rootYears: int -> real, monthly: int -> bool)

  function EffectiveDelta(c: Contract, m: Market): Option<real> {
    if c.delta.Some? then c.delta else m.blackScholes(c)
  }

  function Filter(cs: seq<Contract>, keep: Contract -> bool): (r: seq<Contract>)
    ensures forall c :: c in r <==> c in cs && keep(c)
  {
    if cs == [] then []
    else (if keep(cs[0]) then [cs[0]] else []) + Filter(cs[1..], keep)
  }

  function OfType(cs: seq<Contract>, t: OptionType): seq<Contract> { Filter(cs, (c: Contract) => c.optionType == t) }

  function OfExpiry(cs: seq<Contract>, expiry: int): seq<Contract> { Filter(cs, (c: Contract) => c.expiry == expiry) }

  function AtStrike(cs: seq<Contract>, strike: real): seq<Contract> { Filter(cs, (c: Contract) => c.strike == strike) }

  function InWindow(cs: seq<Contract>, intent: Intent, today: int): seq<Contract> {
    Filter(cs, (c: Contract) => intent.dteMin <= c.expiry - today <= intent.dteMax)
  }

  // ---- Strike ladders ---------------------------------------------------

  predicate Ascending(s: seq<real>) { forall i, j :: 0 <= i < j < |s| ==> s[i] < s[j] }

  function InsertStrike(x: real, s: seq<real>): (r: seq<real>)
    requires Ascending(s)
    ensures Ascending(r) && forall y :: y in r <==> y == x || y in s
  {
    if s == [] then [x]
    else if x < s[0] then [x] + s
    else if x == s[0] then s
    else
      var rest := InsertStrike(x, s[1..]);
      HeadIsLeast(s);
      Prepended(s[0], rest);
      [s[0]] + rest
  }

  lemma HeadIsLeast(s: seq<real>)
    requires Ascending(s) && s != []
    ensures forall y :: y in s[1..] ==> s[0] < y
  {
    forall y | y in s[1..] ensures s[0] < y {
      var i :| 0 <= i < |s| - 1 && s[1..][i] == y;
      assert s[0] < s[i + 1];
    }
  }

  lemma Prepended(x: real, s: seq<real>)
    requires Ascending(s) && forall y :: y in s ==> x < y
    ensures Ascending([x] + s)
  {
    var r := [x] + s;
    forall i, j | 0 <= i < j < |r| ensures r[i] < r[j] {
      if i == 0 { assert r[j] == s[j - 1] && s[j - 1] in s; } else { assert r[i] == s[i - 1] && r[j] == s[j - 1]; }
    }
  }

  /** The distinct strikes of `cs` in ascending order. */
  function Ladder(cs: seq<Contract>): (r: seq<real>)
    ensures Ascending(r) && forall y :: y in r <==> exists c :: c in cs && c.strike == y
  {
    if cs == [] then []
    else
      var r := InsertStrike(cs[0].strike, Ladder(cs[1..]));
      assert forall c :: c in cs <==> c == cs[0] || c in cs[1..];
      r
  }

  /** The smallest gap between neighbours; no two strikes are closer than it. */
  function MinGap(s: seq<real>): (gap: real)
    requires Ascending(s) && |s| >= 2
    ensures gap > 0.0
    ensures forall i, j :: 0 <= i < j < |s| ==> gap <= s[j] - s[i]
  {
    if |s| == 2 then s[1] - s[0]
    else
      var rest := MinGap(s[1..]);
      assert forall i, j :: 1 <= i < j < |s| ==> s[1..][i - 1] == s[i] && s[1..][j - 1] == s[j];
      Min(s[1] - s[0], rest)
  }

  /** Index of the first value nearest `target`. */
  function Nearest(xs: seq<real>, target: real): (k: nat)
    requires xs != []
    ensures k < |xs|
    ensures forall i :: 0 <= i < |xs| ==> Abs(xs[k] - target) <= Abs(xs[i] - target)
    ensures forall i :: 0 <= i < k ==> Abs(xs[k] - target) < Abs(xs[i] - target)
  {
    if |xs| == 1 then 0
    else
      var k := Nearest(xs[..|xs| - 1], target);
      assert forall i :: 0 <= i < |xs| - 1 ==> xs[..|xs| - 1][i] == xs[i];
      if Abs(xs[|xs| - 1] - target) < Abs(xs[k] - target) then |xs| - 1 else k
  }

  // ---- Delta targeting --------------------------------------------------

  datatype Pick = Pick(contract: Contract, delta: real, diff: real)

  predicate Eligible(c: Contract, t: OptionType, m: Market) {
    c.optionType == t && EffectiveDelta(c, m).Some?
  }

  function DeltaGap(c: Contract, target: real, m: Market): real
    requires EffectiveDelta(c, m).Some?
  {
    Abs(Abs(EffectiveDelta(c, m).value) - target)
  }

  /** The first contract of type `t` whose delta is nearest the target in absolute value. */
  function Closest(cs: seq<Contract>, t: OptionType, target: real, m: Market): (r: Option<Pick>)
    ensures r.None? <==> forall c :: c in cs ==> !Eligible(c, t, m)
    ensures r.Some? ==>
              var p := r.value;
              && p.contract in cs && Eligible(p.contract, t, m)
              && EffectiveDelta(p.contract, m) == Some(p.delta)
              && p.diff == DeltaGap(p.contract, target, m)
              && forall c :: c in cs && Eligible(c, t, m) ==> p.diff <= DeltaGap(c, target, m)
  {
    if cs == [] then None
    else
      var c := cs[|cs| - 1];
      var best := Closest(cs[..|cs| - 1], t, target, m);
      assert forall d :: d in cs <==> d in cs[..|cs| - 1] || d == c;
      if !Eligible(c, t, m) then best
      else
        var diff := DeltaGap(c, target, m);
        if best.None? || diff < best.value.diff then Some(Pick(c, EffectiveDelta(c, m).value, diff)) else best
  }

  lemma {:induction false} NoneClosest(t: OptionType, target: real, m: Market)
    ensures Closest([], t, target, m).None?
  {}

  lemma {:induction false} ClosestNext(cs: seq<Contract>, i: nat, t: OptionType, target: real, m: Market)
    requires i < |cs|
    ensures var c, best := cs[i], Closest(cs[..i], t, target, m);
            Closest(cs[..i + 1], t, target, m) ==
              if !Eligible(c, t, m) || (best.Some? && DeltaGap(c, target, m) >= best.value.diff) then best
              else Some(Pick(c, EffectiveDelta(c, m).value, DeltaGap(c, target, m)))
  {
    hide Eligible, DeltaGap;
    assert cs[..i + 1][..i] == cs[..i];
  }

  method ClosestToDelta(cs: seq<Contract>, t: OptionType, target: real, m: Market) returns (best: Option<Pick>)
    ensures best == Closest(cs, t, target, m)
  {
    hide Closest;
    best := None;
    NoneClosest(t, target, m);
    for i := 0 to |cs|
      invariant best == Closest(cs[..i], t, target, m)
    {
      var c := cs[i];
      ClosestNext(cs, i, t, target, m);
      if c.optionType == t && EffectiveDelta(c, m).Some? {
        var delta := EffectiveDelta(c, m).value;
        var diff := Abs(Abs(delta) - target);
        if best.None? || diff < best.value.diff { best := Some(Pick(c, delta, diff)); }
      }
    }
    assert cs[..|cs|] == cs;
  }

  // ---- Wing width -------------------------------------------------------

  /** Distance to spot and implied vol of the listed strike nearest spot, as the smallest such pair. */
  function AtmVol(cs: seq<Contract>, spot: real): (r: Option<(real, real)>)
    ensures r.None? <==> forall c :: c in cs ==> c.iv.None? || c.iv.value <= 0.0
    ensures r.Some? ==> r.value.1 > 0.0 && exists c :: c in cs && c.iv == Some(r.value.1) && Abs(c.strike - spot) == r.value.0
    ensures r.Some? ==> forall c :: c in cs && c.iv.Some? && c.iv.value > 0.0 ==>
              r.value.0 < Abs(c.strike - spot) || (r.value.0 == Abs(c.strike - spot) && r.value.1 <= c.iv.value)
  {
    if cs == [] then None
    else
      var c := cs[|cs| - 1];
      var best := AtmVol(cs[..|cs| - 1], spot);
      assert forall d :: d in cs <==> d in cs[..|cs| - 1] || d == c;
      if c.iv.None? || c.iv.value <= 0.0 then best
      else
        var gap := Abs(c.strike - spot);
        if best.None? || gap < best.value.0 || (gap == best.value.0 && c.iv.value < best.value.1)
        then Some((gap, c.iv.value)) else best
  }

  function MoveMult(strategy: Strategy, settings: Settings): real {
    if strategy == IronButterfly then settings.widthMoveMultAtm else settings.widthMoveMult
  }

  function TargetWidth(intent: Intent, cs: seq<Contract>, settings: Settings, m: Market, dte: int): Option<real> {
    if intent.spreadWidth.Some? then intent.spreadWidth
    else if MoveMult(intent.strategy, settings) <= 0.0 then None
    else
      var vol := AtmVol(cs, m.spot);
      if vol.None? || m.spot <= 0.0 || dte <= 0 then None
      else Some(m.spot * vol.value.1 * m.rootYears(dte) * MoveMult(intent.strategy, settings))
  }

  // ---- Credit verticals -------------------------------------------------

  datatype Vertical = Vertical(
    short: Contract, shortDelta: Option<real>, long: Contract, longDelta: Option<real>, score: real)
  {
    function Width(): real { Abs(short.strike - long.strike) }
  }

  /** Same expiry, same type, and the wing strictly further out of the money than the short. */
  predicate WingProtected(v: Vertical, t: OptionType, cs: seq<Contract>) {
    && v.short in cs && v.long in cs
    && v.short.optionType == t && v.long.optionType == t
    && (if t == Put then v.long.strike < v.short.strike else v.short.strike < v.long.strike)
  }

  function WingSide(side: seq<Contract>, t: OptionType, strike: real): seq<Contract> {
    if t == Put then Filter(side, (c: Contract) => c.strike < strike) else Filter(side, (c: Contract) => c.strike > strike)
  }

  lemma {:induction false} NearestOfAll(cs: seq<Contract>, strikes: seq<real>, target: real)
    requires cs != [] && |strikes| == |cs| && forall i :: 0 <= i < |cs| ==> strikes[i] == cs[i].strike
    ensures forall c :: c in cs ==> Abs(cs[Nearest(strikes, target)].strike - target) <= Abs(c.strike - target)
  {
    forall c | c in cs ensures Abs(cs[Nearest(strikes, target)].strike - target) <= Abs(c.strike - target) {
      var i :| 0 <= i < |cs| && cs[i] == c;
      assert Abs(strikes[Nearest(strikes, target)] - target) <= Abs(strikes[i] - target);
    }
  }

  /** The candidate nearest `target`, unless even it is more than one increment away. */
  function NearestListed(cs: seq<Contract>, target: real, increment: real): (r: Option<Contract>)
    ensures r.Some? ==> r.value in cs && Abs(r.value.strike - target) <= increment
    ensures r.Some? ==> forall c :: c in cs ==> Abs(r.value.strike - target) <= Abs(c.strike - target)
    ensures r.None? <==> forall c :: c in cs ==> Abs(c.strike - target) > increment
  {
    if cs == [] then None
    else
      var strikes := seq(|cs|, i requires 0 <= i < |cs| => cs[i].strike);
      var c := cs[Nearest(strikes, target)];
      NearestOfAll(cs, strikes, target);
      if Abs(c.strike - target) > increment then None else Some(c)
  }

  /** The short anchor: at the pinned strike when one is given, else the closest to the target delta. */
  function Anchor(side: seq<Contract>, t: OptionType, target: real, m: Market, pinned: Option<real>)
    : (r: Option<(Contract, real)>)
    ensures r.Some? ==> r.value.0 in side
    ensures r.Some? && pinned.Some? ==> r.value.0.strike == pinned.value
  {
    match pinned
    case None =>
      var p := Closest(side, t, target, m);
      if p.None? then None else Some((p.value.contract, p.value.diff))
    case Some(strike) =>
      var anchored := AtStrike(side, strike);
      if anchored == [] then None
      else
        assert anchored[0] in anchored;
        Some((anchored[0], if m.spot > 0.0 then Abs(anchored[0].strike - m.spot) / m.spot else 0.0))
  }

  function CreditVertical(sameExpiry: seq<Contract>, t: OptionType, target: real, width: real, increment: real,
                          m: Market, pinned: Option<real>): (r: Option<Vertical>)
    ensures r.Some? ==> WingProtected(r.value, t, sameExpiry)
    ensures r.Some? ==> Abs(r.value.Width() - width) <= increment
    ensures r.Some? && pinned.Some? ==> r.value.short.strike == pinned.value
  {
    var side := OfType(sameExpiry, t);
    var anchor := Anchor(side, t, target, m, pinned);
    if anchor.None? then None
    else
      var short := anchor.value.0;
      var aim := if t == Put then short.strike - width else short.strike + width;
      var wing := NearestListed(WingSide(side, t, short.strike), aim, increment);
      if wing.None? then None
      else Some(Vertical(short, EffectiveDelta(short, m), wing.value, EffectiveDelta(wing.value, m), anchor.value.1))
  }

  /** Strikes listed on both the call and the put side. */
  function SharedLadder(cs: seq<Contract>): seq<real> {
    Ladder(Filter(OfType(cs, Call), (c: Contract) => exists p :: p in OfType(cs, Put) && p.strike == c.strike))
  }

  /** What a finished set of verticals looks like for each credit strategy. */
  predicate Assembled(strategy: Strategy, vs: seq<Vertical>, cs: seq<Contract>) {
    match strategy
    case PutCreditSpread => |vs| == 1 && WingProtected(vs[0], Put, cs)
    case CallCreditSpread => |vs| == 1 && WingProtected(vs[0], Call, cs)
    case IronCondor =>
      |vs| == 2 && WingProtected(vs[0], Put, cs) && WingProtected(vs[1], Call, cs)
      && vs[0].short.strike < vs[1].short.strike
    case IronButterfly =>
      |vs| == 2 && WingProtected(vs[0], Put, cs) && WingProtected(vs[1], Call, cs)
      && vs[0].short.strike == vs[1].short.strike
    case _ => false
  }

  predicate IsCredit(s: Strategy) {
    s == PutCreditSpread || s == CallCreditSpread || s == IronCondor || s == IronButterfly
  }

  /** The complete leg set for a credit intent on one expiry; every wing sits within one increment of the width. */
  function AssembleVerticals(intent: Intent, sameExpiry: seq<Contract>, settings: Settings, m: Market, dte: int)
    : (r: Option<seq<Vertical>>)
    requires IsCredit(intent.strategy)
    ensures r.Some? ==> Assembled(intent.strategy, r.value, sameExpiry)
  {
    var ladder := Ladder(sameExpiry);
    var width := TargetWidth(intent, sameExpiry, settings, m, dte);
    if |ladder| < 2 || width.None? || width.value <= 0.0 then None
    else
      var gap := MinGap(ladder);
      var shared := SharedLadder(sameExpiry);
      var pinned :=
        if intent.strategy != IronButterfly || shared == [] then None else Some(shared[Nearest(shared, m.spot)]);
      if intent.strategy == IronButterfly && pinned.None? then None
      else
        var put := CreditVertical(sameExpiry, Put, intent.targetDelta, width.value, gap, m, pinned);
        var call := CreditVertical(sameExpiry, Call, intent.targetDelta, width.value, gap, m, pinned);
        if intent.strategy == PutCreditSpread then (if put.None? then None else Some([put.value]))
        else if intent.strategy == CallCreditSpread then (if call.None? then None else Some([call.value]))
        else if put.None? || call.None? then None
        else if intent.strategy == IronCondor && put.value.short.strike >= call.value.short.strike then None
        else Some([put.value, call.value])
  }

  // ---- The best expiry --------------------------------------------------

  /** One expiry's score and what it would trade; `None` when nothing complete is listed on it. */
  type Offer<T> = int -> Option<(real, T)>

  /** The lowest-scoring offer over a set of expiries, the earliest one on a tie. */
  ghost function Best<T>(expiries: set<int>, offer: Offer<T>): (r: Option<(real, T)>)
    ensures r.None? <==> forall e :: e in expiries ==> offer(e).None?
    ensures r.Some? ==> exists e :: e in expiries && offer(e) == r
    ensures r.Some? ==> forall e :: e in expiries && offer(e).Some? ==> r.value.0 <= offer(e).value.0
  {
    if expiries == {} then None
    else
      var e := Latest(expiries);
      var best := Best(expiries - {e}, offer);
      assert forall x :: x in expiries <==> x == e || x in expiries - {e};
      if offer(e).Some? && (best.None? || offer(e).value.0 < best.value.0) then offer(e) else best
  }

  function Penalty(expiry: int, settings: Settings, m: Market): real {
    if !settings.monthlyPreference || m.monthly(expiry) then 0.0 else 0.000001
  }

  function TotalScore(vs: seq<Vertical>): real {
    if vs == [] then 0.0 else TotalScore(vs[..|vs| - 1]) + vs[|vs| - 1].score
  }

  function CreditOffer(intent: Intent, inWindow: seq<Contract>, settings: Settings, m: Market): Offer<seq<Vertical>>
    requires IsCredit(intent.strategy)
  {
    (expiry: int) =>
      var vs := AssembleVerticals(intent, OfExpiry(inWindow, expiry), settings, m, expiry - m.today);
      if vs.None? then None else Some((TotalScore(vs.value) + Penalty(expiry, settings, m), vs.value))
  }

  function StrangleOffer(intent: Intent, inWindow: seq<Contract>, settings: Settings, m: Market): Offer<(Pick, Pick)>
  {
    (expiry: int) =>
      var sameExpiry := OfExpiry(inWindow, expiry);
      var call := Closest(sameExpiry, Call, intent.targetDelta, m);
      var put := Closest(sameExpiry, Put, intent.targetDelta, m);
      if call.None? || put.None? || call.value.contract.strike <= put.value.contract.strike then None
      else Some((call.value.diff + put.value.diff + Penalty(expiry, settings, m), (call.value, put.value)))
  }

  function Expiries(cs: seq<Contract>): set<int> { set c | c in cs :: c.expiry }

  lemma EmptyBest<T>(offer: Offer<T>)
    ensures Best({}, offer).None?
  {}

  lemma {:induction false} BestNext<T>(done: set<int>, e: int, offer: Offer<T>)
    requires forall d :: d in done ==> d < e
    ensures var best := Best(done, offer);
            Best(done + {e}, offer) ==
              if offer(e).Some? && (best.None? || offer(e).value.0 < best.value.0) then offer(e) else best
  {
    assert Latest(done + {e}) == e;
    assert done + {e} - {e} == done;
  }

  /** The scan over expiries in ascending order that keeps the best offer seen so far. */
  method BestOffer<T>(expiries: set<int>, offer: Offer<T>) returns (best: Option<(real, T)>)
    ensures best == Best(expiries, offer)
  {
    hide Best;
    best := None;
    EmptyBest(offer);
    var todo := expiries;
    ghost var done: set<int> := {};
    while todo != {}
      invariant done + todo == expiries && done !! todo
      invariant forall d, t :: d in done && t in todo ==> d < t
      invariant best == Best(done, offer)
      decreases todo
    {
      EarliestExists(todo);
      var e :| e in todo && forall t :: t in todo ==> e <= t;
      var o := offer(e);
      if o.Some? && (best.None? || o.value.0 < best.value.0) { best := o; }
      BestNext(done, e, offer);
      done := done + {e};
      todo := todo - {e};
    }
    assert done == expiries;
  }
}
