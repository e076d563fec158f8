/** What a second backfill pass looks at, and when it can do better than the first. */
module IvRetries {
  import opened Models
  import opened Collections
  import opened TradingCalendar
  import opened IvHistory
  import opened IvBackfill

  // ---- What the second pass looks at --------------------------------------

  /** Some broker's answers on a given day to a symbol with these closes. */
  ghost predicate On(src: Source, closes: map<int, real>, today: int) {
    src.closes == closes && src.today == today && src.Valid()
  }

  function Past(closes: map<int, real>, today: int): set<int> { set d | d in closes && d < today }

  /** The sessions a pass leaves for the next one. */
  ghost function LeftOver(p: Pass): set<int>
    requires p.Valid()
  {
    p.missing - KeptDays(p.missing, p)
  }

  /** What is missing once a pass over `stored` has been written. */
  ghost function MissingAfter(src: Source, stored: set<int>, window: nat): set<int>
    requires src.Valid()
  {
    var p := PassOver(src, stored, window);
    Missing(src.closes, src.today, LatestDays(stored + KeptDays(p.missing, p), window))
  }

  /**
   * When the stored sessions all lie in the closes and those fit the window, the sessions a
   * second pass finds missing are exactly those the first pass dropped, as many as it counted.
   */
  lemma SecondPassRetriesTheDropped(stored: set<int>, src: Source, window: nat, dropped: map<Reason, nat>)
    requires src.Valid() && stored <= src.closes.Keys && |src.closes| <= window
    requires var p := PassOver(src, stored, window); Tallied(dropped, p.missing, p)
    ensures MissingAfter(src, stored, window) == LeftOver(PassOver(src, stored, window))
    ensures |MissingAfter(src, stored, window)| == Total(dropped)
  {
    hide FateOf, Total, Tallied;
    var p := PassOver(src, stored, window);
    var kept := KeptDays(p.missing, p);
    SmallerSubset(stored, src.closes.Keys);
    SmallerSubset(stored + kept, src.closes.Keys);
    AllDaysAreLatest(stored, window);
    AllDaysAreLatest(stored + kept, window);
    FatesPartition(dropped, p.missing, p);
  }

  /**
   * For any store and one broker: a second pass retries exactly what the first dropped if and only
   * if every other session held by then is among the latest `window` of them.
   */
  lemma SecondPassRetriesIff(stored: set<int>, src: Source, window: nat)
    requires src.Valid()
    ensures var p := PassOver(src, stored, window);
            var held := stored + KeptDays(p.missing, p);
            (MissingAfter(src, stored, window) == LeftOver(p)
             <==> forall d | d in Past(src.closes, src.today) && d in held && d !in LeftOver(p) ::
                    |Later(held, d)| < window)
  {
    hide FateOf;
    var p := PassOver(src, stored, window);
    var first := p.missing;
    var kept := KeptDays(first, p);
    var held, dropped := stored + kept, first - kept;
    var second := MissingAfter(src, stored, window);
    forall d | d in dropped ensures d in second {
      if d in stored {
        assert Later(stored, d) <= Later(held, d);
        SmallerSubset(Later(stored, d), Later(held, d));
      }
    }
    forall d | d in Past(src.closes, src.today) && d !in dropped
      ensures d in held && (d in second <==> |Later(held, d)| >= window)
    {
      if d !in first { assert d in LatestDays(stored, window); }
    }
    if forall d | d in Past(src.closes, src.today) && d in held && d !in dropped :: |Later(held, d)| < window {
      assert second <= dropped;
    }
  }

  // ---- A broker that lists every close as a strike ------------------------

  /** One call per close, all under one symbol. */
  ghost function Chain(days: set<int>, closes: map<int, real>, expiry: int): (rows: seq<Listed>)
    requires days <= closes.Keys
    ensures forall i :: 0 <= i < |rows| ==> rows[i].occ == Some("C") && rows[i].expiry == Some(expiry)
    ensures forall d :: d in days ==> exists i :: 0 <= i < |rows| && rows[i].strike == Some(closes[d])
  {
    if days == {} then []
    else
      HasElement(days);
      var d :| d in days;
      var rest, row := Chain(days - {d}, closes, expiry), Listed(Some(closes[d]), Some("C"), Some(expiry));
      assert (rest + [row])[|rest|] == row;
      assert forall i :: 0 <= i < |rest| ==> (rest + [row])[i] == rest[i];
      rest + [row]
  }

  /** That chain, printing on the days that `printed` gives for the dates asked for, every print solvable. */
  ghost function Ample(closes: map<int, real>, today: int, printed: (int, int) -> set<int>): Source {
    Source(today, closes,
           (r: Request) => Some(Chain(closes.Keys, closes, r.expiry)),
           (occs: seq<string>, from: int, to: int) => Some(Prints(printed(from, to))),
           (spot: real, strike: real, dte: int, price: real) => Some(0.3))
  }

  ghost function Prints(days: set<int>): Bars {
    map["C" := map d | d in days :: Bar(Some(1.0), Some(MIN_TRADES_PER_BAR))]
  }

  lemma {:induction false} SomeRowStands(rows: seq<Listed>, expiry: int, price: real, i: nat)
    requires i < |rows| && Reports(rows[i], expiry, price)
    requires forall j :: 0 <= j < |rows| ==> rows[j].occ == Some("C")
    ensures LastReported(rows, expiry, price, "C")
  {
    hide LastReported;
    OneMoreRow(rows, expiry, price, "C");
    if !Reports(rows[|rows| - 1], expiry, price) { SomeRowStands(rows[..|rows| - 1], expiry, price, i); }
  }

  /** The fullest chain is at the expiry asked for and lists every close. */
  lemma {:induction false} ChainIsFullest(closes: map<int, real>, expiry: int, day: int)
    requires day in closes && forall d :: d in closes ==> closes[d] > 0.0
    ensures Index(Chain(closes.Keys, closes, expiry)) != []
    ensures var g := Fullest(Index(Chain(closes.Keys, closes, expiry)));
            && g.expiry == expiry && Strike(closes[day], "C") in g.strikes
            && forall s :: s in g.strikes ==> s.occ == "C"
  {
    hide Chain, Index, Fullest;
    var rows := Chain(closes.Keys, closes, expiry);
    var i :| 0 <= i < |rows| && rows[i].strike == Some(closes[day]);
    SomeRowStands(rows, expiry, closes[day], i);
    IndexKeepsLastRows(rows);
    assert Stands(Index(rows), expiry, closes[day], "C");
    var g := Fullest(Index(rows));
    var k :| 0 <= k < |Index(rows)| && Index(rows)[k] == g;
    forall s | s in g.strikes ensures s.occ == "C" && g.expiry == expiry {
      assert s == Strike(s.price, s.occ);
      assert Stands(Index(rows), g.expiry, s.price, s.occ);
    }
    assert g.strikes[0] in g.strikes;
  }

  /** With that broker a session is kept exactly when it printed within the dates asked for. */
  lemma {:induction false} AmpleFate(day: int, expiry: int, group: set<int>, closes: map<int, real>, today: int,
                  printed: (int, int) -> set<int>)
    requires On(Ample(closes, today, printed), closes, today)
    requires day in group && group <= closes.Keys && expiry > day
    ensures FateAt(day, expiry, group, Ample(closes, today, printed)).Kept?
       <==> day in printed(Earliest(group), Latest(group))
  {
    var src := Ample(closes, today, printed);
    ChainIsFullest(closes, expiry, day);
    var g := Fullest(Index(Chain(closes.Keys, closes, expiry)));
    var bars := Prints(printed(Earliest(group), Latest(group)));
    assert FeedFor(expiry, group, src) == Feed(Some(Chain(closes.Keys, closes, expiry)), Some(bars));
    hide Index, Fullest, Chain, NearestTraded, FeedFor;
    var spot := closes[day];
    var s := NearestTraded(g.strikes, bars, day, spot);
    if day in printed(Earliest(group), Latest(group)) {
      assert TradedOn(Strike(spot, "C"), bars, day);
      assert s.value.price == spot;
      AtTheMoney(day, expiry, spot, src);
    } else {
      assert s.None?;
    }
  }

  lemma AtTheMoney(day: int, expiry: int, spot: real, src: Source)
    requires expiry > day && spot > 0.0 && src.solve(spot, spot, expiry - day, 1.0) == Some(0.3)
    ensures FateOfBar(day, expiry, spot, spot, Bar(Some(1.0), Some(MIN_TRADES_PER_BAR)), src).Kept?
  {
    assert spot / spot == 1.0;
  }

  // ---- Whatever the broker answers ----------------------------------------

  /** Positive closes of real days: what `Source.Valid` says of every source. */
  ghost predicate Proper(closes: map<int, real>) { forall d :: d in closes ==> d >= 1 && closes[d] > 0.0 }

  /** A generous broker: every session of the pass is kept. */
  lemma AmpleKeepsAll(first: set<int>, closes: map<int, real>, today: int)
    requires Proper(closes) && first <= closes.Keys
    ensures var p := Pass(Ample(closes, today, (from, to) => closes.Keys), first);
            p.Valid() && KeptDays(first, p) == first
  {
    hide FateAt, Ample, ExpiryFor;
    var printed := (from: int, to: int) => closes.Keys;
    var src := Ample(closes, today, printed);
    AmpleIsOn(closes, today, printed);
    var p := Pass(src, first);
    forall d | d in first ensures FateOf(d, p).Kept? {
      ExpiryAlwaysFound(d, 12);
      var expiry := ExpiryFor(d).value;
      assert d in PricedAt(first, expiry);
      AmpleFate(d, expiry, PricedAt(first, expiry), closes, today, printed);
    }
  }

  lemma AmpleIsOn(closes: map<int, real>, today: int, printed: (int, int) -> set<int>)
    requires Proper(closes)
    ensures On(Ample(closes, today, printed), closes, today)
  {}

  /**
   * Before either pass: whatever the broker answers, a second pass retries exactly what the first
   * dropped, if and only if every past close is among the latest `window` of the stored sessions
   * and the past closes together.
   */
  lemma EverySecondPassRetriesIff(closes: map<int, real>, today: int, stored: set<int>, window: nat)
    requires Proper(closes)
    ensures (forall src: Source | On(src, closes, today) ::
               MissingAfter(src, stored, window) == LeftOver(PassOver(src, stored, window)))
       <==> (forall d | d in Past(closes, today) :: |Later(stored + Past(closes, today), d)| < window)
  {
    hide FateOf, Ample;
    var past := Past(closes, today);
    if forall d | d in past :: |Later(stored + past, d)| < window {
      forall src: Source | On(src, closes, today)
        ensures MissingAfter(src, stored, window) == LeftOver(PassOver(src, stored, window))
      {
        var p := PassOver(src, stored, window);
        var held := stored + KeptDays(p.missing, p);
        forall d | d in past ensures |Later(held, d)| < window {
          SmallerSubset(Later(held, d), Later(stored + past, d));
        }
        SecondPassRetriesIff(stored, src, window);
      }
    }
    var src := Ample(closes, today, (from, to) => closes.Keys);
    AmpleIsOn(closes, today, (from, to) => closes.Keys);
    if MissingAfter(src, stored, window) == LeftOver(PassOver(src, stored, window)) {
      var p := PassOver(src, stored, window);
      AmpleKeepsAll(p.missing, closes, today);
      assert LeftOver(p) == {};
      assert stored + p.missing == stored + past;
      SecondPassRetriesIff(stored, src, window);
    }
  }

  // ---- When a retry is in vain --------------------------------------------

  /** Asked again about what one pass dropped, the same source gives every session the same fate. */
  ghost predicate RetryIsIdle(p: Pass)
    requires p.Valid()
  {
    forall d :: d in LeftOver(p) ==> FateOf(d, Pass(p.src, LeftOver(p))) == FateOf(d, p)
  }

  /** No two sessions are priced off the same expiry. */
  ghost predicate Apart(days: set<int>) {
    forall a, b | a in days && b in days && a >= 1 && b >= 1 && a != b :: ExpiryFor(a) != ExpiryFor(b)
  }

  /** A session asked for alone both times is asked for in the same words. */
  lemma ApartIsIdle(p: Pass)
    requires p.Valid() && Apart(p.missing)
    ensures RetryIsIdle(p)
  {
    hide FateAt, ExpiryFor;
    var again := Pass(p.src, LeftOver(p));
    forall d | d in again.missing ensures FateOf(d, again) == FateOf(d, p) {
      if ExpiryFor(d).Some? {
        var expiry := ExpiryFor(d).value;
        assert PricedAt(p.missing, expiry) == {d} && PricedAt(again.missing, expiry) == {d};
      }
    }
  }

  /** The latest session of a group prints in the first pass only, the others in the second only. */
  ghost function Fickle(closes: map<int, real>, last: int): (int, int) -> set<int> {
    (from, to) => if to == last then {last} else closes.Keys
  }

  lemma {:induction false} FickleFate(day: int, expiry: int, group: set<int>, closes: map<int, real>, today: int,
                                      last: int)
    requires Proper(closes) && day in group && group <= closes.Keys && expiry > day
    ensures var src := Ample(closes, today, Fickle(closes, last));
            src.Valid() && src.closes == closes
            && (FateAt(day, expiry, group, src).Kept? <==> (Latest(group) == last ==> day == last))
  {
    hide FateAt;
    AmpleIsOn(closes, today, Fickle(closes, last));
    AmpleFate(day, expiry, group, closes, today, Fickle(closes, last));
  }

  lemma FateInGroup(day: int, expiry: int, p: Pass)
    requires p.Valid() && day in PricedAt(p.missing, expiry)
    ensures FateOf(day, p) == FateAt(day, expiry, PricedAt(p.missing, expiry), p.src)
  {
    hide FateAt, ExpiryFor;
  }

  lemma SharedIsNotIdle(first: set<int>, closes: map<int, real>, today: int, expiry: int, a: int, b: int)
    requires Proper(closes) && first <= closes.Keys
    requires a in PricedAt(first, expiry) && b in PricedAt(first, expiry) && a != b
    ensures var p := Pass(Ample(closes, today, Fickle(closes, Latest(PricedAt(first, expiry)))), first);
            p.Valid() && !RetryIsIdle(p)
  {
    hide FateAt, FateOf, Ample, ExpiryFor, Latest, Fickle;
    var group := PricedAt(first, expiry);
    var last := Latest(group);
    var other := if a == last then b else a;
    ExpiryAlwaysFound(last, 12);
    ExpiryAlwaysFound(other, 12);
    FickleFate(last, expiry, group, closes, today, last);
    FickleFate(other, expiry, group, closes, today, last);
    var p := Pass(Ample(closes, today, Fickle(closes, last)), first);
    FateInGroup(last, expiry, p);
    FateInGroup(other, expiry, p);
    var retry := Pass(p.src, LeftOver(p));
    assert other in retry.missing && last !in retry.missing;
    var rest := PricedAt(retry.missing, expiry);
    assert other in rest && Latest(rest) != last;
    FickleFate(other, expiry, rest, closes, today, last);
    FateInGroup(other, expiry, retry);
  }

  /**
   * Before either pass: whatever the broker answers, retrying is in vain, every session meeting
   * its old fate, if and only if no two missing sessions are priced off the same expiry. With two,
   * the ones kept narrow the strikes and the dates asked for, and the broker may answer otherwise.
   */
  lemma EveryRetryIsIdleIff(first: set<int>, closes: map<int, real>, today: int)
    requires Proper(closes) && first <= closes.Keys
    ensures (forall src: Source | On(src, closes, today) :: RetryIsIdle(Pass(src, first))) <==> Apart(first)
  {
    hide RetryIsIdle, Ample, ExpiryFor;
    if Apart(first) {
      forall src: Source | On(src, closes, today) ensures RetryIsIdle(Pass(src, first)) {
        ApartIsIdle(Pass(src, first));
      }
    } else {
      var a, b :| a in first && b in first && a >= 1 && b >= 1 && a != b && ExpiryFor(a) == ExpiryFor(b);
      ExpiryAlwaysFound(a, 12);
      var expiry := ExpiryFor(a).value;
      SharedIsNotIdle(first, closes, today, expiry, a, b);
      AmpleIsOn(closes, today, Fickle(closes, Latest(PricedAt(first, expiry))));
    }
  }

  /** An idle retry keeps nothing and counts what was counted before. */
  lemma IdleRetryCountsAgain(p: Pass, once: map<Reason, nat>, again: map<Reason, nat>)
    requires p.Valid() && RetryIsIdle(p)
    requires Tallied(once, p.missing, p) && Tallied(again, LeftOver(p), Pass(p.src, LeftOver(p)))
    ensures KeptDays(LeftOver(p), Pass(p.src, LeftOver(p))) == {}
    ensures forall r :: Count(again, r) == Count(once, r)
  {
    hide FateOf;
    var retry := Pass(p.src, LeftOver(p));
    forall r ensures Count(again, r) == Count(once, r) {
      assert DroppedFor(retry.missing, retry, r) == DroppedFor(p.missing, p, r);
    }
  }

  // ---- Two passes in a row ------------------------------------------------

  /** What the store holds after a pass that evicted nothing: the sessions it held and the ones written. */
  lemma {:induction false} PassAddsKeptDays(rows: seq<IvRow>, written: seq<Reading>, p: Pass)
    requires p.Valid() && Collected(written, p.missing, p)
    requires |rows| + |KeptDays(p.missing, p)| <= MEMORY_LIMIT
    ensures var after := PushAll(rows, SortByTs(RowsOf(written)));
            && |after| == |rows| + |KeptDays(p.missing, p)|
            && DaysWithIv(after) == DaysWithIv(rows) + KeptDays(p.missing, p)
  {
    hide DaysWithIv, KeptDays, SortByTs, PushAll;
    var sorted := SortByTs(RowsOf(written));
    assert |sorted| == |multiset(sorted)| == |multiset(RowsOf(written))| == |written|;
    PushAllAddsDays(rows, sorted);
    SameDays(sorted, RowsOf(written));
    hide Collected;
    RowsCoverKept(written, p.missing, p);
  }

  /** With the closes inside the window nothing stored is missing, so what is kept is new. */
  lemma KeptIsNew(stored: set<int>, src: Source, window: nat)
    requires src.Valid() && stored <= src.closes.Keys && |src.closes| <= window
    ensures var p := PassOver(src, stored, window);
            && stored !! p.missing && |KeptDays(p.missing, p)| <= |p.missing|
            && |stored + KeptDays(p.missing, p)| == |stored| + |KeptDays(p.missing, p)|
            && |stored| + |p.missing| <= |src.closes|
            && stored + KeptDays(p.missing, p) <= src.closes.Keys
  {
    hide FateOf;
    var p := PassOver(src, stored, window);
    SmallerSubset(stored, src.closes.Keys);
    AllDaysAreLatest(stored, window);
    assert |stored + p.missing| == |stored| + |p.missing|;
    SmallerSubset(stored + p.missing, src.closes.Keys);
    SmallerSubset(KeptDays(p.missing, p), p.missing);
  }

  /**
   * Two passes on one day, the broker free to answer otherwise the second time. The second looks
   * at exactly what the first dropped; no session is written twice; what neither wrote is counted
   * by the second under its reason. From an unchanged broker, and with no two missing sessions
   * priced off one expiry, the second drops everything again for the same reasons.
   */
  method BackfillTwice(src: Source, again: Source, window: nat, series: IvSeries)
      returns (first: BackfillReport, second: BackfillReport)
    requires src.Valid() && On(again, src.closes, src.today)
    requires DaysWithIv(series.rows) <= src.closes.Keys && |src.closes| <= window
    requires |series.rows| + |src.closes| <= MEMORY_LIMIT
    modifies series
    ensures first.sessionsMissing == first.sessionsWritten + Total(first.dropped)
    ensures second.sessionsMissing == Total(first.dropped) == second.sessionsWritten + Total(second.dropped)
    ensures first.Complete() <==> second.sessionsMissing == 0
    ensures |series.rows| == |old(series.rows)| + first.sessionsWritten + second.sessionsWritten
    ensures |DaysWithIv(series.rows)| == |DaysWithIv(old(series.rows))| + first.sessionsWritten + second.sessionsWritten
    ensures DaysWithIv(old(series.rows)) <= DaysWithIv(series.rows) <= src.closes.Keys
    ensures again == src && Apart(PassOver(src, DaysWithIv(old(series.rows)), window).missing) ==>
              second.sessionsWritten == 0 && forall r :: Count(second.dropped, r) == Count(first.dropped, r)
  {
    hide Apart, FateOf, KeptDays, Tallied, Collected, Missing, LatestDays, DaysWithIv;
    hide PushAll, SortByTs, RowsOf, Total, Count;
    ghost var before, stored := series.rows, DaysWithIv(series.rows);
    ghost var p := PassOver(src, stored, window);
    ghost var written, rewritten;
    first, written := BackfillDailyIv(src, window, series);
    KeptIsNew(stored, src, window);
    PassAddsKeptDays(before, written, p);
    SecondPassRetriesTheDropped(stored, src, window, first.dropped);
    ghost var between, held := series.rows, DaysWithIv(series.rows);
    ghost var q := PassOver(again, held, window);
    second, rewritten := BackfillDailyIv(again, window, series);
    KeptIsNew(held, again, window);
    PassAddsKeptDays(between, rewritten, q);
    assert q.missing == LeftOver(p);
    if again == src && Apart(p.missing) {
      ApartIsIdle(p);
      IdleRetryCountsAgain(p, first.dropped, second.dropped);
    }
  }

  // ---- A retry that succeeds ----------------------------------------------

  /** The rows of a listing that a request reaches. */
  function Within(rows: seq<Listed>, r: Request): seq<Listed> {
    if rows == [] then []
    else
      var row, rest := rows[0], Within(rows[1..], r);
      if WellFormed(row) && r.expiry - 1 <= row.expiry.value <= r.expiry && r.lowStrike <= row.strike.value <= r.highStrike
      then [row] + rest else rest
  }

  /** The bars of the symbols and dates asked for. */
  function Between(bars: Bars, occs: seq<string>, from: int, to: int): Bars {
    map occ | occ in bars && occ in occs :: map day | day in bars[occ] && from <= day <= to :: bars[occ][day]
  }

  function Row(strike: real, occ: string, expiry: int): Listed { Listed(Some(strike), Some(occ), Some(expiry)) }

  /** Two strikes on the Thursday and one on the Friday. */
  function TwoChains(friday: int): seq<Listed> {
    [Row(120.0, "T120", friday - 1), Row(125.0, "T125", friday - 1), Row(100.0, "F100", friday)]
  }

  const GOOD_BAR := Bar(Some(1.0), Some(MIN_TRADES_PER_BAR))

  /** One unchanging broker: a session at 100 and the next one at 130, priced off the same Friday. */
  function Unchanging(friday: int): Source {
    var day := friday - 35;
    var bars := map["T120" := map[day := GOOD_BAR, day + 1 := GOOD_BAR], "F100" := map[day := GOOD_BAR]];
    Source(friday, map[day := 100.0, day + 1 := 130.0],
           (r: Request) => Some(Within(TwoChains(friday), r)),
           (occs: seq<string>, from: int, to: int) => Some(Between(bars, occs, from, to)),
           (spot: real, strike: real, dte: int, price: real) => Some(0.3))
  }

  lemma YearOneStarts()
    ensures FirstOf(12) == 1
  {}

  lemma FiveWeeksBefore(session: int, k: nat)
    requires session >= 1 && 34 <= ThirdFridayOf(k) - session <= 35
    ensures ExpiryFor(session) == Some(ThirdFridayOf(k))
  {
    hide ExpiryFor, ThirdFridayOf, FirstOf;
    ThirdFridaySpan(k);
    ExpiryAlwaysFound(session, k);
  }

  /** Priced off the third Friday of any month: five weeks before it, and the day after that. */
  lemma BothOffOneFriday(k: nat)
    requires k >= 14
    ensures var friday := ThirdFridayOf(k);
            && friday >= 36 && ExpiryFor(friday - 35) == Some(friday) && ExpiryFor(friday - 34) == Some(friday)
  {
    hide ExpiryFor, FirstOf, ThirdFridayOf;
    YearOneStarts();
    ThirdFridaySpan(12);
    LaterThirdFriday(12, k - 12);
    FiveWeeksBefore(ThirdFridayOf(k) - 35, k);
    FiveWeeksBefore(ThirdFridayOf(k) - 34, k);
  }

  lemma {:induction false} IndexNext(rows: seq<Listed>, strike: real, occ: string, expiry: int)
    requires strike > 0.0 && occ != ""
    ensures Index(rows + [Row(strike, occ, expiry)]) == PutListed(Index(rows), expiry, Strike(strike, occ))
  {
    var longer := rows + [Row(strike, occ, expiry)];
    assert longer[..|longer| - 1] == rows;
  }

  /** Both sessions together reach the Thursday's chain, which is the fuller. */
  lemma TogetherListed(friday: int)
    ensures Within(TwoChains(friday), Request(friday, 92.0, 140.4, false)) == TwoChains(friday)
    ensures Index(TwoChains(friday)) == [Group(friday - 1, [Strike(120.0, "T120"), Strike(125.0, "T125")]),
                                         Group(friday, [Strike(100.0, "F100")])]
  {
    hide Index;
    var rows, r := TwoChains(friday), Request(friday, 92.0, 140.4, false);
    assert rows[1..] == [rows[1], rows[2]] && rows[2..] == [rows[2]] && rows[3..] == [];
    assert Within(rows[2..], r) == [rows[2]];
    assert Within(rows[1..], r) == [rows[1], rows[2]];
    NoIndex();
    IndexNext([], 120.0, "T120", friday - 1);
    IndexNext([rows[0]], 125.0, "T125", friday - 1);
    IndexNext([rows[0], rows[1]], 100.0, "F100", friday);
    assert [] + [rows[0]] == [rows[0]] && [rows[0]] + [rows[1]] == [rows[0], rows[1]];
    assert [rows[0], rows[1]] + [rows[2]] == rows;
    var one := Group(friday - 1, [Strike(120.0, "T120")]);
    assert Index([rows[0]]) == [one];
    assert PutStrike(one.strikes, Strike(125.0, "T125")) == [Strike(120.0, "T120"), Strike(125.0, "T125")] by {
      assert one.strikes[1..] == [];
    }
    assert [one][1..] == [];
    assert Index([rows[0], rows[1]]) == [Group(friday - 1, [Strike(120.0, "T120"), Strike(125.0, "T125")])];
    assert Index([rows[0], rows[1]])[1..] == [];
  }

  lemma NoIndex()
    ensures Index([]) == []
  {}

  /** The dropped session alone reaches the Friday's only. */
  lemma AloneListed(friday: int)
    ensures Within(TwoChains(friday), Request(friday, 92.0, 108.0, false)) == [Row(100.0, "F100", friday)]
    ensures Index([Row(100.0, "F100", friday)]) == [Group(friday, [Strike(100.0, "F100")])]
  {
    hide Index;
    var rows, r := TwoChains(friday), Request(friday, 92.0, 108.0, false);
    assert rows[1..] == [rows[1], rows[2]] && rows[2..] == [rows[2]] && rows[3..] == [];
    assert Within(rows[2..], r) == [rows[2]];
    assert Within(rows[1..], r) == [rows[2]];
    NoIndex();
    IndexNext([], 100.0, "F100", friday);
    assert [] + [rows[2]] == [rows[2]];
  }

  /** What the fullest chain and the nearest strike that printed come to. */
  lemma {:induction false} ServedFate(day: int, expiry: int, group: set<int>, src: Source, g: Group, bars: Bars,
                                      s: Strike)
    requires src.Valid() && day in group && group <= src.closes.Keys
    requires var feed := FeedFor(expiry, group, src);
             && feed.contracts.Some? && Index(feed.contracts.value) != [] && feed.bars == Some(bars)
             && g == Fullest(Index(feed.contracts.value))
    requires NearestTraded(g.strikes, bars, day, src.closes[day]) == Some(s)
    ensures FateAt(day, expiry, group, src) == FateOfBar(day, g.expiry, s.price, src.closes[day], bars[s.occ][day], src)
  {
    hide FeedFor, Index, Fullest, NearestTraded, FateOfBar;
  }

  function Thursdays(friday: int): Group { Group(friday - 1, [Strike(120.0, "T120"), Strike(125.0, "T125")]) }

  lemma TogetherFed(friday: int)
    requires friday >= 36
    ensures var src, group := Unchanging(friday), {friday - 35, friday - 34};
            && src.Valid() && group <= src.closes.Keys
            && FeedFor(friday, group, src)
               == Feed(Some(TwoChains(friday)),
                       Some(map["T120" := map[friday - 35 := GOOD_BAR, friday - 34 := GOOD_BAR]]))
            && Index(TwoChains(friday)) != [] && Fullest(Index(TwoChains(friday))) == Thursdays(friday)
  {
    hide Index, Within, Fullest;
    var day, src, group := friday - 35, Unchanging(friday), {friday - 35, friday - 34};
    TogetherListed(friday);
    assert Index(TwoChains(friday))[0] == Thursdays(friday);
    assert day in group && day + 1 in group;
    assert LowSpot(group, src.closes) == 100.0 && HighSpot(group, src.closes) == 130.0;
    assert Asked(friday, group, src) == Request(friday, 92.0, 140.4, false);
    assert Earliest(group) == day && Latest(group) == day + 1;
    assert Symbols(Thursdays(friday).strikes) == ["T120", "T125"];
    var bars := FeedFor(friday, group, src).bars.value;
    assert bars.Keys == {"T120"};
    assert bars["T120"] == map[day := GOOD_BAR, day + 1 := GOOD_BAR];
    assert bars == map["T120" := map[day := GOOD_BAR, day + 1 := GOOD_BAR]];
  }

  /** Asked for together, the session at 100 is dropped and the one at 130 is kept. */
  lemma TogetherFates(friday: int)
    requires friday >= 36
    ensures var src, group := Unchanging(friday), {friday - 35, friday - 34};
            && src.Valid() && group <= src.closes.Keys
            && FateAt(friday - 35, friday, group, src) == Dropped(StrikeTooFar)
            && FateAt(friday - 34, friday, group, src).Kept?
  {
    hide Index, Within, FateAt, NearestTraded, Fullest, FeedFor;
    var day, src, group := friday - 35, Unchanging(friday), {friday - 35, friday - 34};
    TogetherFed(friday);
    var chain, bars := Thursdays(friday), map["T120" := map[day := GOOD_BAR, day + 1 := GOOD_BAR]];
    assert TradedOn(chain.strikes[0], bars, day) && TradedOn(chain.strikes[0], bars, day + 1);
    ServedFate(day, friday, group, src, chain, bars, Strike(120.0, "T120"));
    ServedFate(day + 1, friday, group, src, chain, bars, Strike(120.0, "T120"));
  }

  /** Asked for alone, the session at 100 is kept. */
  lemma AloneFate(friday: int)
    requires friday >= 36
    ensures var src := Unchanging(friday);
            && src.Valid() && {friday - 35} <= src.closes.Keys
            && FateAt(friday - 35, friday, {friday - 35}, src).Kept?
  {
    hide Index, Within, FateAt, NearestTraded, Fullest;
    var day, src, group := friday - 35, Unchanging(friday), {friday - 35};
    AloneListed(friday);
    var chain := Group(friday, [Strike(100.0, "F100")]);
    assert day in group;
    assert LowSpot(group, src.closes) == 100.0 && HighSpot(group, src.closes) == 100.0;
    assert Asked(friday, group, src) == Request(friday, 92.0, 108.0, false);
    assert Earliest(group) == day && Latest(group) == day;
    var contracts := src.listing(Asked(friday, group, src)).value;
    assert contracts == [Row(100.0, "F100", friday)];
    assert Index(contracts)[0] == chain;
    assert Fullest(Index(contracts)) == chain;
    var bars := FeedFor(friday, group, src).bars.value;
    assert Symbols(chain.strikes)[0] == "F100";
    assert bars["F100"][day] == GOOD_BAR;
    assert TradedOn(chain.strikes[0], bars, day);
    ServedFate(day, friday, group, src, chain, bars, Strike(100.0, "F100"));
  }

  /** Dropped by a pass, and kept when the same source is asked again about what that pass dropped. */
  ghost predicate KeptOnRetry(day: int, reason: Reason, p: Pass) {
    p.Valid() && day in p.missing && FateOf(day, p) == Dropped(reason) && FateOf(day, Pass(p.src, LeftOver(p))).Kept?
  }

  /**
   * An unchanged broker can still answer a retry: the session dropped in the company of a far
   * dearer one, whose strikes drew the pass to the other chain, is kept when asked for alone.
   */
  lemma RetryReachesAnotherChain(k: nat)
    requires k >= 14
    ensures var friday := ThirdFridayOf(k);
            KeptOnRetry(friday - 35, StrikeTooFar, Pass(Unchanging(friday), {friday - 35, friday - 34}))
  {
    hide ExpiryFor, ThirdFridayOf, FateAt, FateOf, Unchanging;
    BothOffOneFriday(k);
    var friday := ThirdFridayOf(k);
    TogetherFates(friday);
    AloneFate(friday);
    var p := Pass(Unchanging(friday), {friday - 35, friday - 34});
    assert PricedAt(p.missing, friday) == p.missing;
    FateInGroup(friday - 35, friday, p);
    FateInGroup(friday - 34, friday, p);
    assert LeftOver(p) == {friday - 35};
    assert PricedAt(LeftOver(p), friday) == {friday - 35};
    FateInGroup(friday - 35, friday, Pass(p.src, LeftOver(p)));
  }

  /**
   * Without the window's condition a stored session can be fetched and written again: today's live
   * reading pushes the oldest session out of the window while today has no daily bar yet.
   */
  lemma OldestSessionIsRewritten()
    ensures var closes := map[10 := 100.0, 11 := 101.0];
            var stored := {10, 11, 12};
            10 in stored && 10 in Missing(closes, 12, LatestDays(stored, 2))
  {
    var stored := {10, 11, 12};
    assert {11, 12} <= Later(stored, 10);
    SmallerSubset({11, 12}, Later(stored, 10));
  }
}
