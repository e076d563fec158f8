/** Reconstructing missing daily implied vols from option bars, and accounting for every missing session. */
module IvBackfill {
  import opened Models
  import opened Collections
  import opened Reals
  import opened TradingCalendar
  import opened IvHistory

  const MAX_MONEYNESS_DRIFT: real := 0.10
  const MIN_TRADES_PER_BAR: int := 20
  const IV_SANITY_MIN: real := 0.02
  const IV_SANITY_MAX: real := 3.0
  /** How far beyond the closes of the sessions priced off an expiry strikes are asked for. */
  const STRIKE_BAND: real := 0.08
  /** Minute of the local day at which a regular session closes. */
  const SESSION_CLOSE: int := 960

  datatype Reason =
    | NoExpiryInBand | ExpiryFetchFailed | NoContractsListed | NoBarThatSession
    | NonPositiveDte | StrikeTooFar | TooFewTrades | NoClosePrice | DidNotSolve | OutsideSanityBand

  /** One reference-data row; a field is `None` when the payload's is missing or malformed. */
  datatype Listed = Listed(strike: Option<real>, occ: Option<string>, expiry: Option<int>)

  datatype Strike = Strike(price: real, occ: string)

  datatype Group = Group(expiry: int, strikes: seq<Strike>)

  datatype Bar = Bar(close: Option<real>, trades: Option<int>)

  type Bars = map<string, map<int, Bar>>

  /** A request for an expiry's calls: the two days up to `expiry`, a strike band, and whether they have expired. */
  datatype Request = Request(expiry: int, lowStrike: real, highStrike: real, settled: bool)

  /** The two broker reads for one expiry; `None` is a read that raised, or bars never asked for. */
  datatype Feed = Feed(contracts: Option<seq<Listed>>, bars: Option<Bars>)

  datatype Reading = Reading(day: int, iv: real, dte: int, spot: real, strike: real, price: real)

  datatype Fate = Kept(reading: Reading) | Dropped(reason: Reason)

  /**
   * Everything a pass reads from outside: the date, session closes, the broker's contracts and its
   * bars for some symbols between two days, and the solver (spot, strike, days, price).
   */
  datatype Source = Source(
    today: int,
    closes: map<int, real>,
    listing: Request -> Option<seq<Listed>>,
    bars: (seq<string>, int, int) -> Option<Bars>,
    solve: (real, real, int, real) -> Option<real>)
  {
    /** Only positive closes of real days are kept when the daily bars are read. */
    ghost predicate Valid() { forall d :: d in closes ==> d >= 1 && closes[d] > 0.0 }
  }

  /** One pass: what it reads, and the sessions it set out to reconstruct. */
  datatype Pass = Pass(src: Source, missing: set<int>) {
    ghost predicate Valid() { src.Valid() && missing <= src.closes.Keys }
  }

  // ---- What becomes of one session ----------------------------------------

  /** A dictionary write: the position of a strike seen before stays, its symbol is replaced. */
  function PutStrike(strikes: seq<Strike>, s: Strike): seq<Strike> {
    if strikes == [] then [s]
    else if strikes[0].price == s.price then [s] + strikes[1..]
    else [strikes[0]] + PutStrike(strikes[1..], s)
  }

  function PutListed(groups: seq<Group>, expiry: int, s: Strike): seq<Group> {
    if groups == [] then [Group(expiry, [s])]
    else if groups[0].expiry == expiry then [Group(expiry, PutStrike(groups[0].strikes, s))] + groups[1..]
    else [groups[0]] + PutListed(groups[1..], expiry, s)
  }

  predicate WellFormed(row: Listed) {
    && row.strike.Some? && row.strike.value > 0.0
    && row.occ.Some? && row.occ.value != "" && row.expiry.Some?
  }

  function Index(rows: seq<Listed>): seq<Group> {
    if rows == [] then []
    else
      var groups, row := Index(rows[..|rows| - 1]), rows[|rows| - 1];
      if WellFormed(row) then PutListed(groups, row.expiry.value, Strike(row.strike.value, row.occ.value)) else groups
  }

  /** One group per expiry, one entry per strike in it, and no group without a strike. */
  ghost predicate WellGrouped(groups: seq<Group>) {
    && (forall i, j :: 0 <= i < j < |groups| ==> groups[i].expiry != groups[j].expiry)
    && (forall i :: 0 <= i < |groups| ==> groups[i].strikes != [] && DistinctPrices(groups[i].strikes))
  }

  ghost predicate DistinctPrices(strikes: seq<Strike>) {
    forall i, j :: 0 <= i < j < |strikes| ==> strikes[i].price != strikes[j].price
  }

  /** The symbol `occ` stands at `price` in the group of `expiry`. */
  ghost predicate Stands(groups: seq<Group>, expiry: int, price: real, occ: string) {
    exists i :: 0 <= i < |groups| && groups[i].expiry == expiry && Strike(price, occ) in groups[i].strikes
  }

  predicate Reports(row: Listed, expiry: int, price: real) {
    WellFormed(row) && row.expiry.value == expiry && row.strike.value == price
  }

  /** The last well-formed row for that expiry and strike names `occ`. */
  ghost predicate LastReported(rows: seq<Listed>, expiry: int, price: real, occ: string) {
    exists i :: 0 <= i < |rows| && Reports(rows[i], expiry, price) && rows[i].occ == Some(occ)
      && forall j :: i < j < |rows| ==> !Reports(rows[j], expiry, price)
  }

  lemma {:induction false} PutStrikeWrites(strikes: seq<Strike>, s: Strike)
    requires DistinctPrices(strikes)
    ensures DistinctPrices(PutStrike(strikes, s)) && PutStrike(strikes, s) != []
    ensures forall x :: x in PutStrike(strikes, s) <==> x == s || (x in strikes && x.price != s.price)
  {
    if strikes == [] {
    } else {
      var head, rest := strikes[0], strikes[1..];
      assert strikes == [head] + rest;
      assert forall x :: x in rest ==> x.price != head.price;
      if head.price == s.price {
        assert forall i, j :: 0 <= i < j < |rest| ==> rest[i].price != rest[j].price;
      } else {
        PutStrikeWrites(rest, s);
        var put := PutStrike(rest, s);
        assert forall i :: 0 <= i < |put| ==> put[i] in put;
      }
    }
  }

  ghost function ExpiriesOf(groups: seq<Group>): set<int> { set i | 0 <= i < |groups| :: groups[i].expiry }

  ghost predicate Holds(g: Group, expiry: int, price: real, occ: string) {
    g.expiry == expiry && Strike(price, occ) in g.strikes
  }

  lemma ExpiriesCons(head: Group, rest: seq<Group>)
    ensures ExpiriesOf([head] + rest) == {head.expiry} + ExpiriesOf(rest)
  {
    var groups := [head] + rest;
    assert groups[0] == head;
    forall i | 0 <= i < |rest| ensures rest[i].expiry in ExpiriesOf(groups) { assert groups[i + 1] == rest[i]; }
  }

  lemma UngroupedHead(head: Group, rest: seq<Group>)
    requires WellGrouped([head] + rest)
    ensures head.strikes != [] && DistinctPrices(head.strikes) && head.expiry !in ExpiriesOf(rest) && WellGrouped(rest)
  {
    hide DistinctPrices;
    var groups := [head] + rest;
    assert groups[0] == head;
    forall i | 0 <= i < |rest| ensures rest[i].expiry != head.expiry { assert groups[i + 1] == rest[i]; }
    forall i, j | 0 <= i < j < |rest| ensures rest[i].expiry != rest[j].expiry {
      assert groups[i + 1] == rest[i] && groups[j + 1] == rest[j];
    }
    forall i | 0 <= i < |rest| ensures rest[i].strikes != [] && DistinctPrices(rest[i].strikes) { assert groups[i + 1] == rest[i]; }
  }

  lemma GroupedHead(head: Group, rest: seq<Group>)
    requires head.strikes != [] && DistinctPrices(head.strikes) && head.expiry !in ExpiriesOf(rest) && WellGrouped(rest)
    ensures WellGrouped([head] + rest)
  {
    hide DistinctPrices;
    var groups := [head] + rest;
    forall i, j | 0 <= i < j < |groups| ensures groups[i].expiry != groups[j].expiry {
      assert groups[j] == rest[j - 1] && rest[j - 1].expiry in ExpiriesOf(rest);
      if i > 0 { assert groups[i] == rest[i - 1]; }
    }
    forall i | 0 <= i < |groups| ensures groups[i].strikes != [] && DistinctPrices(groups[i].strikes) {
      if i > 0 { assert groups[i] == rest[i - 1]; }
    }
  }

  lemma GroupedCons(head: Group, rest: seq<Group>)
    ensures WellGrouped([head] + rest)
       <==> head.strikes != [] && DistinctPrices(head.strikes) && head.expiry !in ExpiriesOf(rest) && WellGrouped(rest)
    ensures ExpiriesOf([head] + rest) == {head.expiry} + ExpiriesOf(rest)
  {
    hide *;
    ExpiriesCons(head, rest);
    if WellGrouped([head] + rest) { UngroupedHead(head, rest); }
    if head.strikes != [] && DistinctPrices(head.strikes) && head.expiry !in ExpiriesOf(rest) && WellGrouped(rest) {
      GroupedHead(head, rest);
    }
  }

  lemma StandsCons(head: Group, rest: seq<Group>, e: int, p: real, occ: string)
    ensures Stands([head] + rest, e, p, occ) <==> Holds(head, e, p, occ) || Stands(rest, e, p, occ)
    ensures Stands(rest, e, p, occ) ==> e in ExpiriesOf(rest)
  {
    var groups := [head] + rest;
    assert groups[0] == head;
    if Stands(rest, e, p, occ) {
      var i :| 0 <= i < |rest| && rest[i].expiry == e && Strike(p, occ) in rest[i].strikes;
      assert groups[i + 1] == rest[i];
    }
    if Stands(groups, e, p, occ) && !Holds(head, e, p, occ) {
      var i :| 0 <= i < |groups| && groups[i].expiry == e && Strike(p, occ) in groups[i].strikes;
      assert rest[i - 1] == groups[i];
    }
  }

  lemma {:induction false} PutListedIsGrouped(groups: seq<Group>, expiry: int, s: Strike)
    requires WellGrouped(groups)
    ensures WellGrouped(PutListed(groups, expiry, s))
    ensures ExpiriesOf(PutListed(groups, expiry, s)) == ExpiriesOf(groups) + {expiry}
  {
    hide WellGrouped, DistinctPrices, ExpiriesOf;
    if groups == [] {
      NoGroups();
      GroupedCons(Group(expiry, [s]), []);
      OnePrice(s);
      assert [Group(expiry, [s])] + [] == [Group(expiry, [s])];
    } else {
      var head, rest := groups[0], groups[1..];
      assert groups == [head] + rest;
      GroupedCons(head, rest);
      if head.expiry == expiry {
        PutStrikeWrites(head.strikes, s);
        GroupedCons(Group(expiry, PutStrike(head.strikes, s)), rest);
      } else {
        PutListedIsGrouped(rest, expiry, s);
        GroupedCons(head, PutListed(rest, expiry, s));
      }
    }
  }

  lemma NoGroups()
    ensures WellGrouped([]) && ExpiriesOf([]) == {}
  {}

  lemma OnePrice(s: Strike)
    ensures DistinctPrices([s])
  {}

  /** Writing one row leaves every other expiry and strike alone. */
  lemma {:induction false} PutListedWrites(groups: seq<Group>, expiry: int, s: Strike, e: int, p: real, occ: string)
    requires WellGrouped(groups)
    ensures Stands(PutListed(groups, expiry, s), e, p, occ)
       <==> if e == expiry && p == s.price then occ == s.occ else Stands(groups, e, p, occ)
  {
    hide WellGrouped, DistinctPrices, ExpiriesOf, Stands;
    if groups == [] {
      assert [Group(expiry, [s])] + [] == [Group(expiry, [s])];
      StandsCons(Group(expiry, [s]), [], e, p, occ);
      NothingStands(e, p, occ);
    } else {
      var head, rest := groups[0], groups[1..];
      assert groups == [head] + rest;
      GroupedCons(head, rest);
      StandsCons(head, rest, e, p, occ);
      if head.expiry == expiry {
        PutStrikeWrites(head.strikes, s);
        StandsCons(Group(expiry, PutStrike(head.strikes, s)), rest, e, p, occ);
      } else {
        PutListedWrites(rest, expiry, s, e, p, occ);
        StandsCons(head, PutListed(rest, expiry, s), e, p, occ);
      }
    }
  }

  lemma NothingStands(e: int, p: real, occ: string)
    ensures !Stands([], e, p, occ)
  {}

  /**
   * Malformed rows count for nothing; the rest are grouped by the expiry they report, the last one per
   * strike standing.
   */
  lemma {:induction false} IndexKeepsLastRows(rows: seq<Listed>)
    ensures WellGrouped(Index(rows))
    ensures forall e, p, occ :: Stands(Index(rows), e, p, occ) <==> LastReported(rows, e, p, occ)
  {
    if rows == [] {
    } else {
      hide WellGrouped, Stands, LastReported;
      var front, row := rows[..|rows| - 1], rows[|rows| - 1];
      IndexKeepsLastRows(front);
      if WellFormed(row) { PutListedIsGrouped(Index(front), row.expiry.value, Strike(row.strike.value, row.occ.value)); }
      forall e, p, occ ensures Stands(Index(rows), e, p, occ) <==> LastReported(rows, e, p, occ) {
        OneMoreRow(rows, e, p, occ);
        if WellFormed(row) {
          PutListedWrites(Index(front), row.expiry.value, Strike(row.strike.value, row.occ.value), e, p, occ);
        }
      }
    }
  }

  /** Only strikes above zero and named contracts are ever grouped. */
  lemma {:induction false} IndexIsNamed(rows: seq<Listed>, e: int, p: real, occ: string)
    requires Stands(Index(rows), e, p, occ)
    ensures p > 0.0 && occ != ""
    ensures exists i :: 0 <= i < |rows| && rows[i] == Listed(Some(p), Some(occ), Some(e))
  {
    IndexKeepsLastRows(rows);
    hide Stands, Index;
  }

  lemma OneMoreRow(rows: seq<Listed>, e: int, p: real, occ: string)
    requires rows != []
    ensures LastReported(rows, e, p, occ)
       <==> if Reports(rows[|rows| - 1], e, p) then rows[|rows| - 1].occ == Some(occ)
            else LastReported(rows[..|rows| - 1], e, p, occ)
  {
    hide Reports;
    var front, last := rows[..|rows| - 1], |rows| - 1;
    if !Reports(rows[last], e, p) {
      if LastReported(rows, e, p, occ) {
        var i :| 0 <= i < |rows| && Reports(rows[i], e, p) && rows[i].occ == Some(occ)
          && forall j :: i < j < |rows| ==> !Reports(rows[j], e, p);
        assert front[i] == rows[i];
      }
      if LastReported(front, e, p, occ) {
        var i :| 0 <= i < |front| && Reports(front[i], e, p) && front[i].occ == Some(occ)
          && forall j :: i < j < |front| ==> !Reports(front[j], e, p);
        forall j | i < j < |rows| ensures !Reports(rows[j], e, p) { if j < last { assert rows[j] == front[j]; } }
        assert rows[i] == front[i];
      }
    }
  }

  method StrikesByExpiry(rows: seq<Listed>) returns (groups: seq<Group>)
    ensures groups == Index(rows) && WellGrouped(groups)
    ensures forall e, p, occ :: Stands(groups, e, p, occ) <==> LastReported(rows, e, p, occ)
  {
    hide WellGrouped, Stands, LastReported;
    groups := [];
    for i := 0 to |rows|
      invariant groups == Index(rows[..i])
    {
      assert rows[..i + 1][..i] == rows[..i];
      if WellFormed(rows[i]) {
        groups := PutListed(groups, rows[i].expiry.value, Strike(rows[i].strike.value, rows[i].occ.value));
      }
    }
    assert rows[..|rows|] == rows;
    IndexKeepsLastRows(rows);
  }

  /** The expiry with the most strikes, the later of two equally full. */
  function Fullest(groups: seq<Group>): (g: Group)
    requires groups != []
    ensures g in groups
    ensures forall o :: o in groups ==>
              |o.strikes| < |g.strikes| || (|o.strikes| == |g.strikes| && o.expiry <= g.expiry)
  {
    var last := groups[|groups| - 1];
    if |groups| == 1 then last
    else
      var best := Fullest(groups[..|groups| - 1]);
      assert forall o :: o in groups ==> o in groups[..|groups| - 1] || o == last;
      if |last.strikes| > |best.strikes| || (|last.strikes| == |best.strikes| && last.expiry > best.expiry) then last else best
  }

  predicate TradedOn(s: Strike, bars: Bars, day: int) { s.occ in bars && day in bars[s.occ] }

  /** Among strikes that printed that day, the one nearest the close; the first listed of two equally near. */
  function NearestTraded(strikes: seq<Strike>, bars: Bars, day: int, spot: real): (r: Option<Strike>)
    ensures r.None? <==> forall s :: s in strikes ==> !TradedOn(s, bars, day)
    ensures r.Some? ==> r.value in strikes && TradedOn(r.value, bars, day)
    ensures r.Some? ==> forall s :: s in strikes && TradedOn(s, bars, day) ==> Abs(r.value.price - spot) <= Abs(s.price - spot)
  {
    if strikes == [] then None
    else
      var best, last := NearestTraded(strikes[..|strikes| - 1], bars, day, spot), strikes[|strikes| - 1];
      assert forall s :: s in strikes ==> s in strikes[..|strikes| - 1] || s == last;
      if TradedOn(last, bars, day) && (best.None? || Abs(last.price - spot) < Abs(best.value.price - spot))
      then Some(last) else best
  }

  function FateOfBar(day: int, expiry: int, strike: real, spot: real, bar: Bar, src: Source): Fate
    requires spot > 0.0
  {
    var dte := expiry - day;
    if dte <= 0 then Dropped(NonPositiveDte)
    else if Abs(strike / spot - 1.0) > MAX_MONEYNESS_DRIFT then Dropped(StrikeTooFar)
    else if bar.trades.None? || bar.trades.value < MIN_TRADES_PER_BAR then Dropped(TooFewTrades)
    else if bar.close.None? || bar.close.value <= 0.0 then Dropped(NoClosePrice)
    else
      var iv := src.solve(spot, strike, dte, bar.close.value);
      if iv.None? then Dropped(DidNotSolve)
      else if !(IV_SANITY_MIN <= iv.value <= IV_SANITY_MAX) then Dropped(OutsideSanityBand)
      else Kept(Reading(day, iv.value, dte, spot, strike, bar.close.value))
  }

  // ---- What keeps a bar, and what drops it ---------------------------------

  /** At the money: within a tenth of the close. */
  predicate NearTheMoney(strike: real, spot: real) { 0.9 * spot <= strike <= 1.1 * spot }

  /** Known to have printed at least twenty times. */
  predicate TradedEnough(bar: Bar) { bar.trades.Some? && bar.trades.value >= 20 }

  predicate HasClose(bar: Bar) { bar.close.Some? && bar.close.value > 0.0 }

  predicate Sane(iv: real) { 0.02 <= iv <= 3.0 }

  /** Everything a bar must pass to become a reading. */
  predicate Usable(day: int, expiry: int, strike: real, spot: real, bar: Bar, src: Source) {
    && day < expiry && NearTheMoney(strike, spot) && TradedEnough(bar) && HasClose(bar)
    && var iv := src.solve(spot, strike, expiry - day, bar.close.value);
       iv.Some? && Sane(iv.value)
  }

  /** The first check a bar fails, in the order they are made. */
  predicate Fails(reason: Reason, day: int, expiry: int, strike: real, spot: real, bar: Bar, src: Source) {
    match reason
    case NonPositiveDte => expiry <= day
    case StrikeTooFar => day < expiry && !NearTheMoney(strike, spot)
    case TooFewTrades => day < expiry && NearTheMoney(strike, spot) && !TradedEnough(bar)
    case NoClosePrice => day < expiry && NearTheMoney(strike, spot) && TradedEnough(bar) && !HasClose(bar)
    case DidNotSolve =>
      && day < expiry && NearTheMoney(strike, spot) && TradedEnough(bar) && HasClose(bar)
      && src.solve(spot, strike, expiry - day, bar.close.value).None?
    case OutsideSanityBand =>
      && day < expiry && NearTheMoney(strike, spot) && TradedEnough(bar) && HasClose(bar)
      && var iv := src.solve(spot, strike, expiry - day, bar.close.value);
         iv.Some? && !Sane(iv.value)
    case _ => false
  }

  lemma Moneyness(strike: real, spot: real)
    requires spot > 0.0
    ensures Abs(strike / spot - 1.0) <= MAX_MONEYNESS_DRIFT <==> NearTheMoney(strike, spot)
  {
    assert strike == (strike / spot) * spot;
    var ratio := strike / spot;
    SignOfProduct(ratio - 0.9, spot);
    SignOfProduct(1.1 - ratio, spot);
    assert (ratio - 0.9) * spot == strike - 0.9 * spot;
    assert (1.1 - ratio) * spot == 1.1 * spot - strike;
  }

  /** A bar is kept exactly when it passes every check, and dropped for exactly the first it fails. */
  lemma BarIsKeptIff(day: int, expiry: int, strike: real, spot: real, bar: Bar, src: Source)
    requires spot > 0.0
    ensures var fate := FateOfBar(day, expiry, strike, spot, bar, src);
            && (fate.Kept? <==> Usable(day, expiry, strike, spot, bar, src))
            && (fate.Kept? ==>
                  && fate.reading.day == day && fate.reading.dte == expiry - day && fate.reading.spot == spot
                  && fate.reading.strike == strike && Some(fate.reading.price) == bar.close
                  && Some(fate.reading.iv) == src.solve(spot, strike, expiry - day, fate.reading.price))
            && forall reason :: fate == Dropped(reason) <==> Fails(reason, day, expiry, strike, spot, bar, src)
  {
    Moneyness(strike, spot);
    hide NearTheMoney;
  }

  // ---- What the broker is asked -------------------------------------------

  function Lowest(spots: seq<real>): (r: real)
    requires spots != []
    ensures r in spots && forall x :: x in spots ==> r <= x
  {
    assert forall x :: x in spots ==> x == spots[0] || x in spots[1..];
    if |spots| == 1 then spots[0] else Min(Lowest(spots[1..]), spots[0])
  }

  function Highest(spots: seq<real>): (r: real)
    requires spots != []
    ensures r in spots && forall x :: x in spots ==> x <= r
  {
    assert forall x :: x in spots ==> x == spots[0] || x in spots[1..];
    if |spots| == 1 then spots[0] else Max(Highest(spots[1..]), spots[0])
  }

  ghost function LowSpot(group: set<int>, closes: map<int, real>): (r: real)
    requires group != {} && group <= closes.Keys
    ensures exists d :: d in group && closes[d] == r
    ensures forall d :: d in group ==> r <= closes[d]
  {
    HasElement(group);
    var x :| x in group;
    if group == {x} then closes[x] else Min(LowSpot(group - {x}, closes), closes[x])
  }

  ghost function HighSpot(group: set<int>, closes: map<int, real>): (r: real)
    requires group != {} && group <= closes.Keys
    ensures exists d :: d in group && closes[d] == r
    ensures forall d :: d in group ==> closes[d] <= r
  {
    HasElement(group);
    var x :| x in group;
    if group == {x} then closes[x] else Max(HighSpot(group - {x}, closes), closes[x])
  }

  function Symbols(strikes: seq<Strike>): seq<string> {
    seq(|strikes|, i requires 0 <= i < |strikes| => strikes[i].occ)
  }

  /** The band runs from below the lowest close of the sessions priced together to above their highest. */
  ghost function Asked(expiry: int, group: set<int>, src: Source): Request
    requires group != {} && group <= src.closes.Keys
  {
    Request(expiry, LowSpot(group, src.closes) * (1.0 - STRIKE_BAND), HighSpot(group, src.closes) * (1.0 + STRIKE_BAND),
            expiry < src.today)
  }

  /** What the broker answers for a group of sessions: bars for the fullest chain, from its first day to its last. */
  ghost function FeedFor(expiry: int, group: set<int>, src: Source): Feed
    requires group != {} && group <= src.closes.Keys
  {
    var contracts := src.listing(Asked(expiry, group, src));
    if contracts.None? || Index(contracts.value) == [] then Feed(contracts, None)
    else Feed(contracts, src.bars(Symbols(Fullest(Index(contracts.value)).strikes), Earliest(group), Latest(group)))
  }

  /** What becomes of a session priced off `expiry` together with the rest of its group. */
  ghost function FateAt(day: int, expiry: int, group: set<int>, src: Source): Fate
    requires src.Valid() && day in group && group <= src.closes.Keys
  {
    var feed := FeedFor(expiry, group, src);
    if feed.contracts.None? then Dropped(ExpiryFetchFailed)
    else if Index(feed.contracts.value) == [] then Dropped(NoContractsListed)
    else if feed.bars.None? then Dropped(ExpiryFetchFailed)
    else
      var g := Fullest(Index(feed.contracts.value));
      var s := NearestTraded(g.strikes, feed.bars.value, day, src.closes[day]);
      if s.None? then Dropped(NoBarThatSession)
      else FateOfBar(day, g.expiry, s.value.price, src.closes[day], feed.bars.value[s.value.occ][day], src)
  }

  ghost function PricedAt(days: set<int>, expiry: int): set<int> {
    set d | d in days && d >= 1 && ExpiryFor(d) == Some(expiry)
  }

  /** The sessions of the pass priced off one expiry are asked for together. */
  ghost function FateOf(day: int, p: Pass): Fate
    requires p.Valid() && day in p.missing
  {
    var expiry := ExpiryFor(day);
    if expiry.None? then Dropped(NoExpiryInBand)
    else FateAt(day, expiry.value, PricedAt(p.missing, expiry.value), p.src)
  }

  // ---- Tallies ------------------------------------------------------------

  function Count(dropped: map<Reason, nat>, r: Reason): nat { if r in dropped then dropped[r] else 0 }

  function Bump(dropped: map<Reason, nat>, r: Reason, n: nat): map<Reason, nat> { dropped[r := Count(dropped, r) + n] }

  function Total(dropped: map<Reason, nat>): nat {
    Count(dropped, NoExpiryInBand) + Count(dropped, ExpiryFetchFailed) + Count(dropped, NoContractsListed)
    + Count(dropped, NoBarThatSession) + Count(dropped, NonPositiveDte) + Count(dropped, StrikeTooFar)
    + Count(dropped, TooFewTrades) + Count(dropped, NoClosePrice) + Count(dropped, DidNotSolve)
    + Count(dropped, OutsideSanityBand)
  }

  ghost function DroppedFor(days: set<int>, p: Pass, r: Reason): set<int>
    requires p.Valid() && days <= p.missing
  {
    set d | d in days && FateOf(d, p) == Dropped(r)
  }

  ghost function KeptDays(days: set<int>, p: Pass): set<int>
    requires p.Valid() && days <= p.missing
  {
    set d | d in days && FateOf(d, p).Kept?
  }

  /** Every counter is the number of the handled sessions dropped for that reason. */
  ghost predicate Tallied(dropped: map<Reason, nat>, days: set<int>, p: Pass)
    requires p.Valid() && days <= p.missing
  {
    forall r :: Count(dropped, r) == |DroppedFor(days, p, r)|
  }

  /** Every handled session that is kept has exactly one reading, its own. */
  ghost predicate Collected(readings: seq<Reading>, days: set<int>, p: Pass)
    requires p.Valid() && days <= p.missing
  {
    && (forall i :: 0 <= i < |readings| ==>
          readings[i].day in days && FateOf(readings[i].day, p) == Kept(readings[i]))
    && (forall d :: d in KeptDays(days, p) ==> exists i :: 0 <= i < |readings| && readings[i].day == d)
    && |readings| == |KeptDays(days, p)|
  }

  /** How one reason's sessions grow when a group that shares one fate is added. */
  lemma GroupGrows(days: set<int>, more: set<int>, p: Pass, f: Fate, q: Reason)
    requires p.Valid() && days + more <= p.missing && days !! more
    requires forall d :: d in more ==> (FateOf(d, p).Kept? && f.Kept?) || FateOf(d, p) == f
    ensures |DroppedFor(days + more, p, q)| == |DroppedFor(days, p, q)| + (if f == Dropped(q) then |more| else 0)
  {
    hide FateOf;
    var before, after := DroppedFor(days, p, q), DroppedFor(days + more, p, q);
    if f == Dropped(q) {
      assert after == before + more && before !! more;
    } else {
      assert after == before;
    }
  }

  lemma KeptGrows(days: set<int>, more: set<int>, p: Pass, kept: bool)
    requires p.Valid() && days + more <= p.missing && days !! more
    requires forall d :: d in more ==> FateOf(d, p).Kept? == kept
    ensures KeptDays(days + more, p) == if kept then KeptDays(days, p) + more else KeptDays(days, p)
  {
    hide FateOf;
  }

  lemma TallyGroup(dropped: map<Reason, nat>, days: set<int>, more: set<int>, p: Pass, r: Reason)
    requires p.Valid() && days + more <= p.missing && days !! more
    requires Tallied(dropped, days, p) && forall d :: d in more ==> FateOf(d, p) == Dropped(r)
    ensures Tallied(Bump(dropped, r, |more|), days + more, p)
    ensures KeptDays(days + more, p) == KeptDays(days, p)
  {
    hide FateOf, DroppedFor;
    forall q ensures Count(Bump(dropped, r, |more|), q) == |DroppedFor(days + more, p, q)| {
      GroupGrows(days, more, p, Dropped(r), q);
    }
    KeptGrows(days, more, p, false);
  }

  lemma TallyOne(dropped: map<Reason, nat>, days: set<int>, d: int, p: Pass, r: Reason)
    requires p.Valid() && days + {d} <= p.missing && d !in days && d in p.missing
    requires Tallied(dropped, days, p) && FateOf(d, p) == Dropped(r)
    ensures Tallied(Bump(dropped, r, 1), days + {d}, p)
    ensures KeptDays(days + {d}, p) == KeptDays(days, p)
  {
    hide FateOf;
    TallyGroup(dropped, days, {d}, p, r);
  }

  lemma TallyKept(dropped: map<Reason, nat>, days: set<int>, d: int, p: Pass)
    requires p.Valid() && days + {d} <= p.missing && d !in days && d in p.missing
    requires Tallied(dropped, days, p) && FateOf(d, p).Kept?
    ensures Tallied(dropped, days + {d}, p)
    ensures KeptDays(days + {d}, p) == KeptDays(days, p) + {d}
  {
    hide FateOf, DroppedFor, KeptDays;
    forall q ensures Count(dropped, q) == |DroppedFor(days + {d}, p, q)| {
      GroupGrows(days, {d}, p, FateOf(d, p), q);
    }
    KeptGrows(days, {d}, p, true);
  }

  /** Each session has one fate, so the fates' sizes add up. */
  lemma FatesPartition(dropped: map<Reason, nat>, days: set<int>, p: Pass)
    requires p.Valid() && days <= p.missing && Tallied(dropped, days, p)
    ensures |days| == |KeptDays(days, p)| + Total(dropped)
    ensures |days - KeptDays(days, p)| == Total(dropped)
  {
    hide FateOf;
    FatesAddUp(days, p);
    hide Total;
    TotalIs(dropped, days, p);
    assert days == KeptDays(days, p) + (days - KeptDays(days, p));
  }

  ghost function TotalOf(days: set<int>, p: Pass): nat
    requires p.Valid() && days <= p.missing
  {
    |DroppedFor(days, p, NoExpiryInBand)| + |DroppedFor(days, p, ExpiryFetchFailed)|
    + |DroppedFor(days, p, NoContractsListed)| + |DroppedFor(days, p, NoBarThatSession)|
    + |DroppedFor(days, p, NonPositiveDte)| + |DroppedFor(days, p, StrikeTooFar)|
    + |DroppedFor(days, p, TooFewTrades)| + |DroppedFor(days, p, NoClosePrice)|
    + |DroppedFor(days, p, DidNotSolve)| + |DroppedFor(days, p, OutsideSanityBand)|
  }

  lemma TotalIs(dropped: map<Reason, nat>, days: set<int>, p: Pass)
    requires p.Valid() && days <= p.missing && Tallied(dropped, days, p)
    ensures Total(dropped) == TotalOf(days, p)
  {
    hide DroppedFor;
  }

  lemma {:induction false} FatesAddUp(days: set<int>, p: Pass)
    requires p.Valid() && days <= p.missing
    ensures |days| == |KeptDays(days, p)| + TotalOf(days, p)
    decreases |days|
  {
    hide FateOf;
    if days != {} {
      HasElement(days);
      var d :| d in days;
      var rest := days - {d};
      FatesAddUp(rest, p);
      assert days == rest + {d};
      OneMoreFate(rest, d, p);
    }
  }

  lemma OneMoreTotal(rest: set<int>, d: int, p: Pass)
    requires p.Valid() && rest + {d} <= p.missing && d !in rest
    ensures TotalOf(rest + {d}, p) == TotalOf(rest, p) + (if FateOf(d, p).Kept? then 0 else 1)
  {
    hide FateOf, DroppedFor;
    var f := FateOf(d, p);
    var all := rest + {d};
    GroupGrows(rest, {d}, p, f, NoExpiryInBand);
    GroupGrows(rest, {d}, p, f, ExpiryFetchFailed);
    GroupGrows(rest, {d}, p, f, NoContractsListed);
    GroupGrows(rest, {d}, p, f, NoBarThatSession);
    GroupGrows(rest, {d}, p, f, NonPositiveDte);
    GroupGrows(rest, {d}, p, f, StrikeTooFar);
    GroupGrows(rest, {d}, p, f, TooFewTrades);
    GroupGrows(rest, {d}, p, f, NoClosePrice);
    GroupGrows(rest, {d}, p, f, DidNotSolve);
    GroupGrows(rest, {d}, p, f, OutsideSanityBand);
    match f {
      case Kept(_) =>
      case Dropped(r) =>
        match r {
          case NoExpiryInBand =>
          case ExpiryFetchFailed =>
          case NoContractsListed =>
          case NoBarThatSession =>
          case NonPositiveDte =>
          case StrikeTooFar =>
          case TooFewTrades =>
          case NoClosePrice =>
          case DidNotSolve =>
          case OutsideSanityBand =>
        }
    }
  }

  lemma OneMoreFate(rest: set<int>, d: int, p: Pass)
    requires p.Valid() && rest + {d} <= p.missing && d !in rest
    ensures |KeptDays(rest + {d}, p)| + TotalOf(rest + {d}, p) == |KeptDays(rest, p)| + TotalOf(rest, p) + 1
  {
    hide FateOf, TotalOf;
    OneMoreTotal(rest, d, p);
    KeptGrows(rest, {d}, p, FateOf(d, p).Kept?);
    assert d !in KeptDays(rest, p);
    hide KeptDays, DroppedFor;
  }

  // ---- One pass -----------------------------------------------------------

  class BackfillReport {
    var sessionsMissing: nat
    var sessionsWritten: nat
    var contractsExamined: nat
    var expiriesUsed: nat
    var dropped: map<Reason, nat>

    constructor ()
      ensures sessionsMissing == 0 && sessionsWritten == 0 && contractsExamined == 0 && expiriesUsed == 0 && dropped == map[]
    {
      sessionsMissing, sessionsWritten, contractsExamined, expiriesUsed, dropped := 0, 0, 0, 0, map[];
    }

    method Drop(r: Reason, n: nat)
      modifies this`dropped
      ensures dropped == Bump(old(dropped), r, n)
    {
      dropped := dropped[r := Count(dropped, r) + n];
    }

    /** Nothing is left to reconstruct. */
    predicate Complete()
      reads this
    {
      sessionsMissing == sessionsWritten
    }
  }

  method InvertBar(day: int, expiry: int, strike: real, spot: real, bar: Bar, src: Source, report: BackfillReport)
      returns (reading: Option<Reading>)
    requires spot > 0.0
    modifies report`dropped
    ensures var fate := FateOfBar(day, expiry, strike, spot, bar, src);
            && reading == (if fate.Kept? then Some(fate.reading) else None)
            && report.dropped == if fate.Kept? then old(report.dropped) else Bump(old(report.dropped), fate.reason, 1)
    ensures reading.Some? <==> Usable(day, expiry, strike, spot, bar, src)
    ensures reading.Some? ==>
              && report.dropped == old(report.dropped) && bar.close.Some?
              && var iv := src.solve(spot, strike, expiry - day, bar.close.value);
                 iv.Some? && reading.value == Reading(day, iv.value, expiry - day, spot, strike, bar.close.value)
    ensures forall reason | Fails(reason, day, expiry, strike, spot, bar, src) ::
              reading.None? && report.dropped == Bump(old(report.dropped), reason, 1)
  {
    BarIsKeptIff(day, expiry, strike, spot, bar, src);
    reading := None;
    var dte := expiry - day;
    if dte <= 0 { report.Drop(NonPositiveDte, 1); return; }
    if Abs(strike / spot - 1.0) > MAX_MONEYNESS_DRIFT { report.Drop(StrikeTooFar, 1); return; }
    if bar.trades.None? || bar.trades.value < MIN_TRADES_PER_BAR { report.Drop(TooFewTrades, 1); return; }
    if bar.close.None? || bar.close.value <= 0.0 { report.Drop(NoClosePrice, 1); return; }
    var iv := src.solve(spot, strike, dte, bar.close.value);
    if iv.None? { report.Drop(DidNotSolve, 1); return; }
    if !(IV_SANITY_MIN <= iv.value <= IV_SANITY_MAX) { report.Drop(OutsideSanityBand, 1); return; }
    reading := Some(Reading(day, iv.value, dte, spot, strike, bar.close.value));
  }

  ghost function DaysIn(sessions: seq<int>): set<int> { set i | 0 <= i < |sessions| :: sessions[i] }

  predicate Ascending(days: seq<int>) { forall i, j :: 0 <= i < j < |days| ==> days[i] < days[j] }

  lemma AscendingSize(days: seq<int>)
    requires Ascending(days)
    ensures |DaysIn(days)| == |days|
  {
    if days != [] {
      var front, last := days[..|days| - 1], days[|days| - 1];
      AscendingSize(front);
      OneMoreDay(days, |front|);
      assert days[..|days|] == days;
    }
  }

  lemma NoDays(days: seq<int>)
    ensures DaysIn(days[..0]) == {} && Ascending(days[..0])
  {
  }

  lemma OneMoreDay(days: seq<int>, i: nat)
    requires i < |days|
    ensures DaysIn(days[..i + 1]) == DaysIn(days[..i]) + {days[i]}
    ensures Ascending(days) ==> days[i] !in DaysIn(days[..i])
    ensures days[i] in DaysIn(days)
  {
    assert forall k :: 0 <= k < i ==> days[..i + 1][k] == days[..i][k];
    assert days[..i + 1][i] == days[i];
  }

  /** What one more session does to the counters and to the readings. */
  function Counted(dropped: map<Reason, nat>, f: Fate): map<Reason, nat> {
    if f.Kept? then dropped else Bump(dropped, f.reason, 1)
  }

  function Appended(readings: seq<Reading>, f: Fate): seq<Reading> {
    if f.Kept? then readings + [f.reading] else readings
  }

  lemma TallyStep(dropped: map<Reason, nat>, days: set<int>, d: int, p: Pass)
    requires p.Valid() && days + {d} <= p.missing && d !in days && d in p.missing
    requires Tallied(dropped, days, p)
    ensures Tallied(Counted(dropped, FateOf(d, p)), days + {d}, p)
  {
    hide FateOf, Tallied;
    var f := FateOf(d, p);
    if f.Kept? { TallyKept(dropped, days, d, p); } else { TallyOne(dropped, days, d, p, f.reason); }
  }

  lemma CollectStep(readings: seq<Reading>, days: set<int>, d: int, p: Pass)
    requires p.Valid() && days + {d} <= p.missing && d !in days && d in p.missing
    requires Collected(readings, days, p)
    ensures Collected(Appended(readings, FateOf(d, p)), days + {d}, p)
  {
    hide FateOf, Collected;
    var f := FateOf(d, p);
    if f.Kept? {
      OnlyReading(d, p);
      CollectJoin(readings, days, [f.reading], {d}, p);
    } else {
      NoReadings({d}, p);
      CollectJoin(readings, days, [], {d}, p);
      assert readings + [] == readings;
    }
  }

  lemma OnlyReading(d: int, p: Pass)
    requires p.Valid() && d in p.missing && FateOf(d, p).Kept?
    ensures Collected([FateOf(d, p).reading], {d}, p)
  {
    hide FateOf;
    OwnDay(d, p);
    var f := FateOf(d, p);
    var one := [f.reading];
    assert KeptDays({d}, p) == {d};
    assert one[0].day == d && f == Kept(one[0]);
    hide KeptDays;
  }

  lemma OwnDay(d: int, p: Pass)
    requires p.Valid() && d in p.missing && FateOf(d, p).Kept?
    ensures FateOf(d, p).reading.day == d
  {
    hide ExpiryFor, Index;
  }

  /** Readings of disjoint groups of sessions put together. */
  lemma CollectJoin(a: seq<Reading>, days: set<int>, b: seq<Reading>, more: set<int>, p: Pass)
    requires p.Valid() && days + more <= p.missing && days !! more
    requires Collected(a, days, p) && Collected(b, more, p)
    ensures Collected(a + b, days + more, p)
  {
    hide FateOf;
    var c := a + b;
    assert KeptDays(days + more, p) == KeptDays(days, p) + KeptDays(more, p);
    assert KeptDays(days, p) !! KeptDays(more, p);
    forall k | k in KeptDays(days + more, p) ensures exists i :: 0 <= i < |c| && c[i].day == k {
      if k in KeptDays(days, p) {
        var i :| 0 <= i < |a| && a[i].day == k;
        assert c[i].day == k;
      } else {
        var i :| 0 <= i < |b| && b[i].day == k;
        assert c[|a| + i].day == k;
      }
    }
  }

  lemma NoReadings(days: set<int>, p: Pass)
    requires p.Valid() && days <= p.missing && forall d :: d in days ==> !FateOf(d, p).Kept?
    ensures Collected([], days, p)
  {
    hide FateOf;
    assert KeptDays(days, p) == {};
  }

  /** The broker served the contracts and bars asked for: `g` is the chain to price off. */
  ghost predicate Serves(expiry: int, p: Pass, g: Group, bars: Bars)
    requires p.Valid()
  {
    var group := PricedAt(p.missing, expiry);
    && group != {}
    && var feed := FeedFor(expiry, group, p.src);
       && feed.contracts.Some? && feed.bars == Some(bars)
       && Index(feed.contracts.value) != [] && g == Fullest(Index(feed.contracts.value))
  }

  /** One session of a group whose contracts and bars arrived. */
  method ReadSession(day: int, expiry: int, g: Group, bars: Bars, p: Pass, report: BackfillReport)
      returns (reading: Option<Reading>)
    requires p.Valid() && day in p.missing && day in PricedAt(p.missing, expiry) && Serves(expiry, p, g, bars)
    modifies report`dropped
    ensures report.dropped == Counted(old(report.dropped), FateOf(day, p))
    ensures reading == if FateOf(day, p).Kept? then Some(FateOf(day, p).reading) else None
  {
    hide ExpiryFor, Index, Fullest, FateOfBar, FeedFor;
    reading := None;
    var s := NearestTraded(g.strikes, bars, day, p.src.closes[day]);
    if s.None? { report.Drop(NoBarThatSession, 1); return; }
    reading := InvertBar(day, g.expiry, s.value.price, p.src.closes[day], bars[s.value.occ][day], p.src, report);
  }

  ghost predicate PricedOff(sessions: seq<int>, expiry: int, p: Pass) {
    forall i :: 0 <= i < |sessions| ==> sessions[i] in p.missing && sessions[i] >= 1 && ExpiryFor(sessions[i]) == Some(expiry)
  }

  /** A read that raised, or an empty listing, costs every session of the group. */
  lemma GroupLost(expiry: int, p: Pass)
    requires p.Valid() && PricedAt(p.missing, expiry) != {}
    ensures var group := PricedAt(p.missing, expiry);
            var feed := FeedFor(expiry, group, p.src);
            && group <= p.missing
            && (feed.contracts.None? ==> forall d :: d in group ==> FateOf(d, p) == Dropped(ExpiryFetchFailed))
            && (feed.contracts.Some? && Index(feed.contracts.value) == [] ==>
                  forall d :: d in group ==> FateOf(d, p) == Dropped(NoContractsListed))
            && (feed.contracts.Some? && Index(feed.contracts.value) != [] && feed.bars.None? ==>
                  forall d :: d in group ==> FateOf(d, p) == Dropped(ExpiryFetchFailed))
  {
    hide ExpiryFor, Index, FateOfBar, FeedFor;
  }

  method ReadSessions(expiry: int, sessions: seq<int>, g: Group, bars: Bars, p: Pass, report: BackfillReport,
                      ghost handled: set<int>)
      returns (out: seq<Reading>)
    requires p.Valid() && Ascending(sessions) && PricedOff(sessions, expiry, p)
    requires DaysIn(sessions) <= p.missing && handled <= p.missing && handled !! DaysIn(sessions)
    requires Tallied(report.dropped, handled, p)
    requires DaysIn(sessions) == PricedAt(p.missing, expiry) && Serves(expiry, p, g, bars)
    modifies report`dropped
    ensures Tallied(report.dropped, handled + DaysIn(sessions), p)
    ensures Collected(out, DaysIn(sessions), p)
  {
    hide Ascending, Tallied, Collected, ExpiryFor, FateOf, DaysIn, PricedAt, Serves;
    out := [];
    NoReadings({}, p);
    NoDays(sessions);
    assert handled + {} == handled;
    for i := 0 to |sessions|
      invariant DaysIn(sessions[..i]) <= DaysIn(sessions)
      invariant Tallied(report.dropped, handled + DaysIn(sessions[..i]), p)
      invariant Collected(out, DaysIn(sessions[..i]), p)
    {
      OneMoreDay(sessions, i);
      ghost var done := DaysIn(sessions[..i]);
      TallyStep(report.dropped, handled + done, sessions[i], p);
      CollectStep(out, done, sessions[i], p);
      assert (handled + done) + {sessions[i]} == handled + (done + {sessions[i]});
      var reading := ReadSession(sessions[i], expiry, g, bars, p, report);
      if reading.Some? { out := out + [reading.value]; }
    }
    assert sessions[..|sessions|] == sessions;
  }

  function SpotsOf(sessions: seq<int>, closes: map<int, real>): seq<real>
    requires forall i :: 0 <= i < |sessions| ==> sessions[i] in closes
  {
    seq(|sessions|, i requires 0 <= i < |sessions| => closes[sessions[i]])
  }

  lemma {:induction false} SpotsReachTheBand(sessions: seq<int>, closes: map<int, real>)
    requires sessions != [] && forall i :: 0 <= i < |sessions| ==> sessions[i] in closes
    ensures DaysIn(sessions) != {} && DaysIn(sessions) <= closes.Keys
    ensures Lowest(SpotsOf(sessions, closes)) == LowSpot(DaysIn(sessions), closes)
    ensures Highest(SpotsOf(sessions, closes)) == HighSpot(DaysIn(sessions), closes)
  {
    hide Lowest, Highest, LowSpot, HighSpot;
    var spots, group := SpotsOf(sessions, closes), DaysIn(sessions);
    assert sessions[0] in group;
    forall d | d in group ensures closes[d] in spots {
      var i :| 0 <= i < |sessions| && sessions[i] == d;
      assert spots[i] == closes[d];
    }
    forall x | x in spots ensures exists d :: d in group && closes[d] == x {
      var i :| 0 <= i < |spots| && spots[i] == x;
      var d := sessions[i];
      assert d in group && closes[d] == x;
    }
  }

  lemma FirstAndLast(sessions: seq<int>)
    requires sessions != [] && Ascending(sessions)
    ensures DaysIn(sessions) != {}
    ensures Earliest(DaysIn(sessions)) == sessions[0] && Latest(DaysIn(sessions)) == sessions[|sessions| - 1]
  {
    hide Earliest, Latest;
    assert sessions[0] in DaysIn(sessions) && sessions[|sessions| - 1] in DaysIn(sessions);
  }

  /** The contracts listed for a group; the request spans the closes of the sessions asked for. */
  method ListContracts(expiry: int, sessions: seq<int>, src: Source) returns (contracts: Option<seq<Listed>>)
    requires sessions != [] && forall i :: 0 <= i < |sessions| ==> sessions[i] in src.closes
    ensures DaysIn(sessions) != {} && DaysIn(sessions) <= src.closes.Keys
    ensures contracts == src.listing(Asked(expiry, DaysIn(sessions), src))
  {
    hide Lowest, Highest, LowSpot, HighSpot, DaysIn;
    SpotsReachTheBand(sessions, src.closes);
    var spots := SpotsOf(sessions, src.closes);
    contracts := src.listing(Request(expiry, Lowest(spots) * (1.0 - STRIKE_BAND), Highest(spots) * (1.0 + STRIKE_BAND),
                                     expiry < src.today));
  }

  /** The readings of one group of sessions; `None` when a broker read raised, the counters then untouched. */
  method ReadingsForExpiry(expiry: int, sessions: seq<int>, p: Pass, report: BackfillReport, ghost handled: set<int>)
      returns (readings: Option<seq<Reading>>)
    requires p.Valid() && Ascending(sessions) && PricedOff(sessions, expiry, p)
    requires sessions != [] && DaysIn(sessions) == PricedAt(p.missing, expiry)
    requires DaysIn(sessions) <= p.missing && handled <= p.missing && handled !! DaysIn(sessions)
    requires Tallied(report.dropped, handled, p)
    modifies report`dropped, report`contractsExamined
    ensures readings.None? ==>
              && report.dropped == old(report.dropped)
              && forall d :: d in DaysIn(sessions) ==> FateOf(d, p) == Dropped(ExpiryFetchFailed)
    ensures readings.Some? ==>
              && Tallied(report.dropped, handled + DaysIn(sessions), p)
              && Collected(readings.value, DaysIn(sessions), p)
  {
    hide Ascending, Tallied, Collected, ExpiryFor, Index, FateOf, Fullest, Counted, Appended, DaysIn, PricedAt, Asked;
    readings := None;
    var contracts := ListContracts(expiry, sessions, p.src);
    GroupLost(expiry, p);
    if contracts.None? { return; }
    var listed := StrikesByExpiry(contracts.value);
    if listed == [] {
      AscendingSize(sessions);
      TallyGroup(report.dropped, handled, DaysIn(sessions), p, NoContractsListed);
      NoReadings(DaysIn(sessions), p);
      report.Drop(NoContractsListed, |sessions|);
      readings := Some([]);
      return;
    }
    var g := Fullest(listed);
    report.contractsExamined := report.contractsExamined + |g.strikes|;
    FirstAndLast(sessions);
    var bars := p.src.bars(Symbols(g.strikes), sessions[0], sessions[|sessions| - 1]);
    if bars.None? { return; }
    var out := ReadSessions(expiry, sessions, g, bars.value, p, report, handled);
    readings := Some(out);
  }

  // ---- A whole pass -------------------------------------------------------

  /** Past sessions with a close and no stored reading. */
  function Missing(closes: map<int, real>, today: int, covered: set<int>): set<int> {
    set d | d in closes && d < today && d !in covered
  }

  lemma AppendDay(days: seq<int>, d: int)
    requires Ascending(days) && forall e :: e in DaysIn(days) ==> e < d
    ensures Ascending(days + [d]) && DaysIn(days + [d]) == DaysIn(days) + {d}
  {
    var longer := days + [d];
    assert longer[..|days|] == days && longer[..|days| + 1] == longer;
    OneMoreDay(longer, |days|);
    assert forall i :: 0 <= i < |days| ==> days[i] in DaysIn(days);
  }

  method Sorted(days: set<int>) returns (r: seq<int>)
    ensures Ascending(r) && DaysIn(r) == days && |r| == |days|
  {
    hide Ascending, DaysIn;
    r := [];
    NoDays(r);
    assert r[..0] == r;
    var left := days;
    while left != {}
      invariant left <= days && DaysIn(r) == days - left && Ascending(r)
      invariant forall d, e :: d in DaysIn(r) && e in left ==> d < e
      decreases |left|
    {
      EarliestExists(left);
      var d :| d in left && forall e :: e in left ==> d <= e;
      AppendDay(r, d);
      r := r + [d];
      left := left - {d};
    }
    AscendingSize(r);
  }

  /** Sessions without an expiry, and those of the expiries done so far. */
  ghost function Placed(days: set<int>, done: set<int>): set<int> {
    set d | d in days && d >= 1 && (ExpiryFor(d).None? || ExpiryFor(d).value in done)
  }

  lemma PlaceOne(days: set<int>, done: set<int>, expiry: int)
    requires expiry !in done
    ensures Placed(days, done + {expiry}) == Placed(days, done) + PricedAt(days, expiry)
    ensures Placed(days, done) !! PricedAt(days, expiry)
  {
    hide ExpiryFor;
  }

  ghost predicate Grouped(groups: map<int, seq<int>>, days: set<int>, p: Pass) {
    && (forall e :: e in groups ==>
          && groups[e] != [] && Ascending(groups[e]) && PricedOff(groups[e], e, p)
          && DaysIn(groups[e]) == PricedAt(days, e))
    && (forall d :: d in days && d >= 1 && ExpiryFor(d).Some? ==> ExpiryFor(d).value in groups)
  }

  /** `setdefault(expiry, []).append(day)` for one more day, later than all before it. */
  lemma GroupOne(groups: map<int, seq<int>>, days: set<int>, p: Pass, day: int, expiry: int)
    requires Grouped(groups, days, p) && day in p.missing && day >= 1 && ExpiryFor(day) == Some(expiry)
    requires forall d :: d in days ==> d < day
    ensures var g := if expiry in groups then groups[expiry] else [];
            Grouped(groups[expiry := g + [day]], days + {day}, p)
  {
    hide ExpiryFor, Ascending, DaysIn;
    var g := if expiry in groups then groups[expiry] else [];
    if expiry !in groups {
      assert PricedAt(days, expiry) == {};
      NoDays(g);
      assert g[..0] == g;
    }
    assert DaysIn(g) == PricedAt(days, expiry) && Ascending(g) && PricedOff(g, expiry, p);
    AppendDay(g, day);
    assert PricedAt(days + {day}, expiry) == PricedAt(days, expiry) + {day};
    assert PricedOff(g + [day], expiry, p);
    forall e | e in groups && e != expiry ensures PricedAt(days + {day}, e) == PricedAt(days, e) { }
  }

  method GroupByExpiry(missing: seq<int>, p: Pass, report: BackfillReport) returns (groups: map<int, seq<int>>)
    requires p.Valid() && Ascending(missing) && DaysIn(missing) <= p.missing
    requires report.dropped == map[]
    modifies report`dropped
    ensures Grouped(groups, DaysIn(missing), p)
    ensures Tallied(report.dropped, Placed(DaysIn(missing), {}), p)
    ensures forall d :: d in Placed(DaysIn(missing), {}) ==> FateOf(d, p) == Dropped(NoExpiryInBand)
  {
    hide ExpiryFor, Tallied, Grouped;
    groups := map[];
    NoDays(missing);
    assert Placed({}, {}) == {};
    StartTally(p);
    for i := 0 to |missing|
      invariant DaysIn(missing[..i]) <= DaysIn(missing)
      invariant Grouped(groups, DaysIn(missing[..i]), p)
      invariant Tallied(report.dropped, Placed(DaysIn(missing[..i]), {}), p)
    {
      OneMoreDay(missing, i);
      var day := missing[i];
      ghost var seen := DaysIn(missing[..i]);
      assert forall d :: d in seen ==> d < day;
      var expiry := ExpiryFor(day);
      if expiry.None? {
        assert Placed(seen + {day}, {}) == Placed(seen, {}) + {day};
        TallyOne(report.dropped, Placed(seen, {}), day, p, NoExpiryInBand);
        report.Drop(NoExpiryInBand, 1);
        KeepGroups(groups, seen, p, day);
      } else {
        assert Placed(seen + {day}, {}) == Placed(seen, {});
        GroupOne(groups, seen, p, day, expiry.value);
        groups := groups[expiry.value := (if expiry.value in groups then groups[expiry.value] else []) + [day]];
      }
    }
    assert missing[..|missing|] == missing;
  }

  lemma StartTally(p: Pass)
    requires p.Valid()
    ensures Tallied(map[], {}, p) && Grouped(map[], {}, p)
  {
    forall r ensures DroppedFor({}, p, r) == {} { }
  }

  lemma KeepGroups(groups: map<int, seq<int>>, days: set<int>, p: Pass, day: int)
    requires Grouped(groups, days, p) && day >= 1 && ExpiryFor(day).None?
    ensures Grouped(groups, days + {day}, p)
  {
    hide ExpiryFor;
    forall e | e in groups ensures PricedAt(days + {day}, e) == PricedAt(days, e) { }
  }

  /** The stored form of a reading, dated to its session's close. */
  function RowOf(r: Reading): IvRow { IvRow(r.day * 1440 + SESSION_CLOSE, Some(r.iv)) }

  /** Each reading stored at four in the afternoon of its session. */
  function RowsOf(readings: seq<Reading>): (rows: seq<IvRow>)
    ensures |rows| == |readings|
    ensures forall i :: 0 <= i < |rows| ==>
              && rows[i].iv == Some(readings[i].iv)
              && DayOf(rows[i].ts) == readings[i].day && rows[i].ts == 24 * 60 * readings[i].day + 16 * 60
  {
    seq(|readings|, i requires 0 <= i < |readings| => RowOf(readings[i]))
  }

  lemma RowsCoverKept(readings: seq<Reading>, days: set<int>, p: Pass)
    requires p.Valid() && days <= p.missing && Collected(readings, days, p)
    ensures DaysWithIv(RowsOf(readings)) == KeptDays(days, p)
  {
    hide FateOf;
    var rows := RowsOf(readings);
    forall i | 0 <= i < |readings| ensures rows[i].iv.Some? && DayOf(rows[i].ts) == readings[i].day { }
    forall d | d in KeptDays(days, p) ensures d in DaysWithIv(rows) {
      var i :| 0 <= i < |readings| && readings[i].day == d;
      assert DayOf(rows[i].ts) == d;
    }
  }

  lemma AllPlaced(days: set<int>, groups: map<int, seq<int>>, p: Pass)
    requires p.Valid() && days <= p.missing && Grouped(groups, days, p)
    ensures Placed(days, groups.Keys) == days
  {
    hide ExpiryFor;
  }

  /** The group of one expiry, handled: its readings, or the whole group counted as lost. */
  method HandleGroup(expiry: int, sessions: seq<int>, p: Pass, report: BackfillReport, ghost handled: set<int>)
      returns (readings: seq<Reading>)
    requires p.Valid() && Ascending(sessions) && PricedOff(sessions, expiry, p)
    requires sessions != [] && DaysIn(sessions) == PricedAt(p.missing, expiry)
    requires DaysIn(sessions) <= p.missing && handled <= p.missing && handled !! DaysIn(sessions)
    requires Tallied(report.dropped, handled, p)
    modifies report`dropped, report`contractsExamined
    ensures Tallied(report.dropped, handled + DaysIn(sessions), p)
    ensures Collected(readings, DaysIn(sessions), p)
  {
    hide Ascending, Tallied, Collected, ExpiryFor, FateOf, DaysIn, PricedAt;
    var written := ReadingsForExpiry(expiry, sessions, p, report, handled);
    if written.Some? {
      readings := written.value;
    } else {
      AscendingSize(sessions);
      TallyGroup(report.dropped, handled, DaysIn(sessions), p, ExpiryFetchFailed);
      NoReadings(DaysIn(sessions), p);
      report.Drop(ExpiryFetchFailed, |sessions|);
      readings := [];
    }
  }

  /** One turn of the loop over expiries. */
  method HandleNext(groups: map<int, seq<int>>, expiry: int, p: Pass, report: BackfillReport, sofar: seq<Reading>,
                    ghost done: set<int>)
      returns (readings: seq<Reading>)
    requires p.Valid() && Grouped(groups, p.missing, p)
    requires expiry in groups && expiry !in done && Placed(p.missing, done) <= p.missing
    requires Tallied(report.dropped, Placed(p.missing, done), p) && Collected(sofar, Placed(p.missing, done), p)
    modifies report`dropped, report`contractsExamined
    ensures Placed(p.missing, done + {expiry}) <= p.missing
    ensures Tallied(report.dropped, Placed(p.missing, done + {expiry}), p)
    ensures Collected(readings, Placed(p.missing, done + {expiry}), p)
  {
    hide *;
    PlaceOne(p.missing, done, expiry);
    PlacedInside(p.missing, done + {expiry});
    CollectBound(groups, p.missing, p, expiry);
    ghost var before := Placed(p.missing, done);
    var more := HandleGroup(expiry, groups[expiry], p, report, before);
    CollectJoin(sofar, before, more, DaysIn(groups[expiry]), p);
    readings := sofar + more;
  }

  method HandleGroups(groups: map<int, seq<int>>, p: Pass, report: BackfillReport) returns (readings: seq<Reading>)
    requires p.Valid() && Grouped(groups, p.missing, p)
    requires Placed(p.missing, {}) <= p.missing && Tallied(report.dropped, Placed(p.missing, {}), p)
    requires Collected([], Placed(p.missing, {}), p)
    modifies report`dropped, report`contractsExamined
    ensures Tallied(report.dropped, p.missing, p) && Collected(readings, p.missing, p)
  {
    hide *;
    readings := [];
    var left := groups.Keys;
    ghost var done: set<int> := {};
    while left != {}
      invariant done + left == groups.Keys && done !! left && Placed(p.missing, done) <= p.missing
      invariant Tallied(report.dropped, Placed(p.missing, done), p)
      invariant Collected(readings, Placed(p.missing, done), p)
      decreases |left|
    {
      EarliestExists(left);
      var expiry :| expiry in left && forall e :: e in left ==> expiry <= e;
      readings := HandleNext(groups, expiry, p, report, readings, done);
      done := done + {expiry};
      left := left - {expiry};
    }
    assert done == groups.Keys;
    AllPlaced(p.missing, groups, p);
  }

  lemma PlacedInside(days: set<int>, done: set<int>)
    ensures Placed(days, done) <= days
  {
  }

  lemma CollectBound(groups: map<int, seq<int>>, days: set<int>, p: Pass, expiry: int)
    requires Grouped(groups, days, p) && expiry in groups
    ensures DaysIn(groups[expiry]) == PricedAt(days, expiry) && PricedAt(days, expiry) <= days
    ensures groups[expiry] != [] && Ascending(groups[expiry]) && PricedOff(groups[expiry], expiry, p)
  {
  }

  /** The pass made over a store that holds readings of `stored`. */
  function PassOver(src: Source, stored: set<int>, window: nat): (p: Pass)
    ensures src.Valid() ==> p.Valid()
  {
    Pass(src, Missing(src.closes, src.today, LatestDays(stored, window)))
  }

  /**
   * One pass over one symbol. Every missing session is either written or counted under the
   * reason it was dropped for, and what is written is dated before today.
   */
  method BackfillDailyIv(src: Source, window: nat, series: IvSeries)
      returns (report: BackfillReport, ghost written: seq<Reading>)
    requires src.Valid()
    modifies series
    ensures fresh(report)
    ensures var p := PassOver(src, DaysWithIv(old(series.rows)), window);
            && report.sessionsMissing == |p.missing|
            && Tallied(report.dropped, p.missing, p)
            && Collected(written, p.missing, p)
            && report.sessionsWritten == |KeptDays(p.missing, p)|
            && (report.Complete() <==> KeptDays(p.missing, p) == p.missing)
    ensures series.rows == PushAll(old(series.rows), SortByTs(RowsOf(written)))
    ensures report.sessionsMissing == report.sessionsWritten + Total(report.dropped)
    ensures Count(report.dropped, NoExpiryInBand) == 0
    ensures forall i :: 0 <= i < |written| ==> written[i].day < src.today
  {
    hide Tallied, Collected, DaysIn, Ascending, Grouped, Placed, FateOf, Total, Count, KeptDays;
    hide LatestDays, DaysWithIv, PushAll, SortByTs;
    report := new BackfillReport();
    written := [];
    var covered := series.IvSessionDays(window);
    var p := Pass(src, Missing(src.closes, src.today, covered));
    assert p == PassOver(src, DaysWithIv(series.rows), window);
    var missing := Sorted(p.missing);
    report.sessionsMissing := |missing|;
    var groups := GroupByExpiry(missing, p, report);
    report.expiriesUsed := |groups|;
    PlacedInside(p.missing, {});
    NoReadings(Placed(p.missing, {}), p);
    var readings := HandleGroups(groups, p, report);
    written := readings;
    PassFacts(report.dropped, written, p);
    if readings != [] {
      var n := series.AppendIvSnapshots(RowsOf(readings));
      report.sessionsWritten := n;
    } else {
      NothingPushed(series.rows, readings);
    }
  }

  lemma {:induction false} NothingPushed(rows: seq<IvRow>, readings: seq<Reading>)
    requires readings == []
    ensures PushAll(rows, SortByTs(RowsOf(readings))) == rows
  {
    assert RowsOf(readings) == [];
  }

  lemma PassFacts(dropped: map<Reason, nat>, readings: seq<Reading>, p: Pass)
    requires p.Valid() && Tallied(dropped, p.missing, p) && Collected(readings, p.missing, p)
    requires forall d :: d in p.missing ==> d < p.src.today
    ensures |p.missing| == |KeptDays(p.missing, p)| + Total(dropped)
    ensures |readings| == |KeptDays(p.missing, p)|
    ensures |p.missing| == |KeptDays(p.missing, p)| <==> KeptDays(p.missing, p) == p.missing
    ensures Count(dropped, NoExpiryInBand) == 0
    ensures forall i :: 0 <= i < |readings| ==> readings[i].day < p.src.today
  {
    hide FateOf, Total;
    var days := p.missing;
    FatesPartition(dropped, days, p);
    if |days| == |KeptDays(days, p)| { assert days - KeptDays(days, p) == {}; }
    assert Count(dropped, NoExpiryInBand) == |DroppedFor(days, p, NoExpiryInBand)|;
    forall d | d in days ensures FateOf(d, p) != Dropped(NoExpiryInBand) { AlwaysPriced(d, p); }
    assert DroppedFor(days, p, NoExpiryInBand) == {};
  }

  lemma OnceOnAnExpiry(day: int, expiry: int, group: set<int>, src: Source)
    requires src.Valid() && day in group && group <= src.closes.Keys
    ensures FateAt(day, expiry, group, src) != Dropped(NoExpiryInBand)
  {
    hide FeedFor, Index, Fullest, NearestTraded, Abs;
  }

  /** The band never leaves a session without an expiry, so that reason is never the one. */
  lemma AlwaysPriced(d: int, p: Pass)
    requires p.Valid() && d in p.missing
    ensures FateOf(d, p) != Dropped(NoExpiryInBand)
  {
    hide ExpiryFor, FateAt;
    ExpiryAlwaysFound(d, 12);
    var expiry := ExpiryFor(d).value;
    assert d in PricedAt(p.missing, expiry);
    OnceOnAnExpiry(d, expiry, PricedAt(p.missing, expiry), p.src);
  }

  // ---- What a reading is worth --------------------------------------------

  /** The broker honours the two-day window it was asked for. */
  ghost predicate ListsOnly(rows: seq<Listed>, expiry: int) {
    forall i :: 0 <= i < |rows| && WellFormed(rows[i]) ==> expiry - 1 <= rows[i].expiry.value <= expiry
  }

  lemma {:induction false} PutKeepsWindow(groups: seq<Group>, e: int, s: Strike, expiry: int)
    requires expiry - 1 <= e <= expiry && forall g :: g in groups ==> expiry - 1 <= g.expiry <= expiry
    ensures forall g :: g in PutListed(groups, e, s) ==> expiry - 1 <= g.expiry <= expiry
  {
    if groups != [] && groups[0].expiry != e { PutKeepsWindow(groups[1..], e, s, expiry); }
  }

  lemma {:induction false} IndexKeepsWindow(rows: seq<Listed>, expiry: int)
    requires ListsOnly(rows, expiry)
    ensures forall g :: g in Index(rows) ==> expiry - 1 <= g.expiry <= expiry
  {
    if rows != [] {
      var front, row := rows[..|rows| - 1], rows[|rows| - 1];
      IndexKeepsWindow(front, expiry);
      if WellFormed(row) { PutKeepsWindow(Index(front), row.expiry.value, Strike(row.strike.value, row.occ.value), expiry); }
    }
  }

  lemma BarReading(day: int, expiry: int, strike: real, spot: real, bar: Bar, src: Source)
    requires spot > 0.0 && FateOfBar(day, expiry, strike, spot, bar, src).Kept?
    ensures var r := FateOfBar(day, expiry, strike, spot, bar, src).reading;
            && r.day == day && r.spot == spot && r.price > 0.0 && r.dte == expiry - day > 0
            && src.solve(r.spot, r.strike, r.dte, r.price) == Some(r.iv) && IV_SANITY_MIN <= r.iv <= IV_SANITY_MAX
            && 0.90 * spot <= r.strike <= 1.10 * spot && TradedEnough(bar) && bar.close == Some(r.price)
  {
    Moneyness(strike, spot);
  }

  /**
   * Every reading was solved from a positive print on a contract within a tenth of the spot, inside the
   * sanity band.
   */
  lemma ReadingsAreAtTheMoney(day: int, p: Pass)
    requires p.Valid() && day in p.missing && FateOf(day, p).Kept?
    ensures var r := FateOf(day, p).reading;
            && r.day == day && r.spot == p.src.closes[day] && r.price > 0.0 && r.dte > 0
            && p.src.solve(r.spot, r.strike, r.dte, r.price) == Some(r.iv) && IV_SANITY_MIN <= r.iv <= IV_SANITY_MAX
            && 0.90 * r.spot <= r.strike <= 1.10 * r.spot
  {
    hide ExpiryFor, Index, Fullest, NearestTraded, FateOfBar, FeedFor;
    var expiry := ExpiryFor(day).value;
    assert day in PricedAt(p.missing, expiry);
    var feed := FeedFor(expiry, PricedAt(p.missing, expiry), p.src);
    var g := Fullest(Index(feed.contracts.value));
    var s := NearestTraded(g.strikes, feed.bars.value, day, p.src.closes[day]).value;
    BarReading(day, g.expiry, s.price, p.src.closes[day], feed.bars.value[s.occ][day], p.src);
  }

  lemma BarTenor(day: int, expiry: int, strike: real, spot: real, bar: Bar, src: Source)
    requires spot > 0.0 && expiry > day
    ensures var f := FateOfBar(day, expiry, strike, spot, bar, src);
            f != Dropped(NonPositiveDte) && (f.Kept? ==> f.reading.dte == expiry - day)
  {}

  /** From a listing that honours its window every tenor is 17 to 52 days, and none is ever non-positive. */
  lemma HonestListingFitsTheBand(day: int, expiry: int, p: Pass)
    requires p.Valid() && day in PricedAt(p.missing, expiry)
    requires var contracts := FeedFor(expiry, PricedAt(p.missing, expiry), p.src).contracts;
             contracts.Some? ==> ListsOnly(contracts.value, expiry)
    ensures FateOf(day, p) != Dropped(NonPositiveDte)
    ensures FateOf(day, p).Kept? ==> DTE_MIN - 1 <= FateOf(day, p).reading.dte <= DTE_MAX
  {
    assert InBand(expiry, day);
    hide ExpiryFor, Index, Fullest, NearestTraded, FateOfBar, FeedFor;
    var feed := FeedFor(expiry, PricedAt(p.missing, expiry), p.src);
    if feed.contracts.Some? {
      IndexKeepsWindow(feed.contracts.value, expiry);
      if Index(feed.contracts.value) != [] && feed.bars.Some? {
        var g := Fullest(Index(feed.contracts.value));
        var s := NearestTraded(g.strikes, feed.bars.value, day, p.src.closes[day]);
        if s.Some? {
          BarTenor(day, g.expiry, s.value.price, p.src.closes[day], feed.bars.value[s.value.occ][day], p.src);
        }
      }
    }
  }

  // ---- What becomes of a session, exactly ---------------------------------

  /**
   * The request spans the closes of the group with eight percent to spare, no wider, for the two days up
   * to the expiry.
   */
  lemma RequestSpansTheGroup(expiry: int, group: set<int>, src: Source)
    requires group != {} && group <= src.closes.Keys
    ensures var r := Asked(expiry, group, src);
            && r.expiry == expiry && r.settled == (expiry < src.today)
            && (forall d :: d in group ==> r.lowStrike <= src.closes[d] * 0.92 && src.closes[d] * 1.08 <= r.highStrike)
            && (exists d :: d in group && r.lowStrike == src.closes[d] * 0.92)
            && (exists d :: d in group && r.highStrike == src.closes[d] * 1.08)
  {
    hide LowSpot, HighSpot;
    var lowest, highest := LowSpot(group, src.closes), HighSpot(group, src.closes);
    var low :| low in group && src.closes[low] == lowest;
    var high :| high in group && src.closes[high] == highest;
    assert Asked(expiry, group, src).lowStrike == src.closes[low] * 0.92;
    assert Asked(expiry, group, src).highStrike == src.closes[high] * 1.08;
  }

  /** Bars are asked for every strike of the fullest chain, over exactly the days from the group's first to its last. */
  lemma BarsSpanTheGroup(expiry: int, group: set<int>, src: Source)
    requires group != {} && group <= src.closes.Keys
    ensures var feed := FeedFor(expiry, group, src);
            && feed.contracts == src.listing(Asked(expiry, group, src))
            && (feed.contracts.Some? && Index(feed.contracts.value) != [] ==>
                  exists occs, from, to ::
                    && feed.bars == src.bars(occs, from, to)
                    && occs == Symbols(Fullest(Index(feed.contracts.value)).strikes)
                    && from in group && to in group && forall d :: d in group ==> from <= d <= to)
  {
    hide Index, Fullest, Asked;
  }

  /** The session is priced with strike `s` of the chain served, by the bar it printed that day. */
  ghost predicate PricedWith(day: int, p: Pass, g: Group, s: Strike, bar: Bar)
    requires p.Valid() && day in p.missing
  {
    && ExpiryFor(day).Some?
    && exists bars | Serves(ExpiryFor(day).value, p, g, bars) ::
         && NearestTraded(g.strikes, bars, day, p.src.closes[day]) == Some(s)
         && TradedOn(s, bars, day) && bar == bars[s.occ][day]
  }

  /**
   * A session priced with a strike and a bar is kept exactly when the bar passes every check against
   * that session's close, and dropped for exactly the first it fails.
   */
  lemma SessionIsKeptIff(day: int, p: Pass, g: Group, s: Strike, bar: Bar)
    requires p.Valid() && day in p.missing && PricedWith(day, p, g, s, bar)
    ensures var fate, spot := FateOf(day, p), p.src.closes[day];
            && (fate.Kept? <==> Usable(day, g.expiry, s.price, spot, bar, p.src))
            && (fate.Kept? ==>
                  && fate.reading.dte == g.expiry - day && fate.reading.strike == s.price
                  && Some(fate.reading.price) == bar.close
                  && Some(fate.reading.iv) == p.src.solve(spot, s.price, g.expiry - day, fate.reading.price))
            && forall reason :: fate == Dropped(reason) <==> Fails(reason, day, g.expiry, s.price, spot, bar, p.src)
  {
    hide ExpiryFor, Index, Fullest, NearestTraded, FateOfBar, FeedFor, Usable, Fails;
    BarIsKeptIff(day, g.expiry, s.price, p.src.closes[day], bar, p.src);
  }

  /** No chain or no print: the reasons that cost a session before any bar of its own is looked at. */
  lemma SessionIsUnpricedIff(day: int, expiry: int, p: Pass)
    requires p.Valid() && day in PricedAt(p.missing, expiry)
    ensures var fate, feed := FateOf(day, p), FeedFor(expiry, PricedAt(p.missing, expiry), p.src);
            var listed := feed.contracts.Some? && Index(feed.contracts.value) != [];
            && (fate == Dropped(NoContractsListed) <==> feed.contracts == Some([]) || (feed.contracts.Some? && !listed))
            && (fate == Dropped(ExpiryFetchFailed) <==> feed.contracts.None? || (listed && feed.bars.None?))
            && (fate == Dropped(NoBarThatSession)
                <==> listed && feed.bars.Some?
                     && forall s :: s in Fullest(Index(feed.contracts.value)).strikes ==> !TradedOn(s, feed.bars.value, day))
            && ((exists g, s, bar :: PricedWith(day, p, g, s, bar))
                <==> listed && feed.bars.Some?
                     && exists s :: s in Fullest(Index(feed.contracts.value)).strikes && TradedOn(s, feed.bars.value, day))
  {
    hide ExpiryFor, Index, Fullest, NearestTraded, FateOfBar, FeedFor, Usable, Fails;
    NoRows();
    var feed := FeedFor(expiry, PricedAt(p.missing, expiry), p.src);
    if feed.contracts.Some? && Index(feed.contracts.value) != [] && feed.bars.Some? {
      var g := Fullest(Index(feed.contracts.value));
      assert Serves(expiry, p, g, feed.bars.value);
      var s := NearestTraded(g.strikes, feed.bars.value, day, p.src.closes[day]);
      if s.Some? {
        var bar := feed.bars.value[s.value.occ][day];
        assert PricedWith(day, p, g, s.value, bar);
        BarIsKeptIff(day, g.expiry, s.value.price, p.src.closes[day], bar, p.src);
        BarReasons(day, g.expiry, s.value.price, p.src.closes[day], bar, p.src);
      }
    }
  }

  lemma NoRows()
    ensures Index([]) == []
  {}

  lemma BarReasons(day: int, expiry: int, strike: real, spot: real, bar: Bar, src: Source)
    ensures !Fails(NoContractsListed, day, expiry, strike, spot, bar, src)
    ensures !Fails(ExpiryFetchFailed, day, expiry, strike, spot, bar, src)
    ensures !Fails(NoBarThatSession, day, expiry, strike, spot, bar, src)
  {}
}
