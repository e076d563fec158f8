/** Third-Friday arithmetic over proleptic Gregorian ordinals: day 1 is 1 January of year 1. */
module TradingCalendar {
  import opened Models

  const DTE_MIN: int := 18
  const DTE_MAX: int := 52
  const DTE_MIDDLE: int := 35

  // ---- Months -------------------------------------------------------------

  predicate IsLeap(y: int) { y % 4 == 0 && (y % 100 != 0 || y % 400 == 0) }

  function DaysInMonth(y: int, m: int): int {
    if m == 2 then (if IsLeap(y) then 29 else 28)
    else if m == 4 || m == 6 || m == 9 || m == 11 then 30 else 31
  }

  function YearStart(y: int): int { (y - 1) * 365 + (y - 1) / 4 - (y - 1) / 100 + (y - 1) / 400 + 1 }

  function DaysBefore(y: int, m: nat): int { if m <= 1 then 0 else DaysBefore(y, m - 1) + DaysInMonth(y, m - 1) }

  /** Ordinal of the first of a month. */
  function First(y: int, m: nat): int { YearStart(y) + DaysBefore(y, m) }

  /** Months counted without a break: month `m` of year `y` is number `12 y + m - 1`. */
  function FirstOf(k: nat): int { First(k / 12, k % 12 + 1) }

  function DaysOf(k: nat): int { DaysInMonth(k / 12, k % 12 + 1) }

  /** Ordinals are Python's: 1 January of year 1 is day 1, of 1970 day 719163, of 10000 the day after the last. */
  lemma KnownDays()
    ensures YearStart(1) == 1 && YearStart(1970) == 719163 && YearStart(10000) == 3652060
  {}

  lemma YearLength(y: int)
    ensures YearStart(y + 1) == YearStart(y) + (if IsLeap(y) then 366 else 365)
  {
    assert y / 4 == (y - 1) / 4 + (if y % 4 == 0 then 1 else 0);
    assert y / 100 == (y - 1) / 100 + (if y % 100 == 0 then 1 else 0);
    assert y / 400 == (y - 1) / 400 + (if y % 400 == 0 then 1 else 0);
  }

  /** The twelve lengths, February taking the day a longer year has. */
  lemma MonthLengths(y: int, m: int)
    requires 1 <= m <= 12
    ensures m in {1, 3, 5, 7, 8, 10, 12} ==> DaysInMonth(y, m) == 31
    ensures m in {4, 6, 9, 11} ==> DaysInMonth(y, m) == 30
    ensures m == 2 ==> DaysInMonth(y, m) == YearStart(y + 1) - YearStart(y) - 337
  {
    YearLength(y);
    hide IsLeap, YearStart;
  }

  lemma NextMonth(y: int, m: nat)
    requires m >= 1
    ensures DaysBefore(y, m + 1) == DaysBefore(y, m) + DaysInMonth(y, m)
  {}

  lemma {:induction false} DaysBeforeMay(y: int)
    ensures DaysBefore(y, 5) == 92 + DaysInMonth(y, 2)
  {
    hide DaysBefore;
    NoDaysBeforeJanuary(y);
    NextMonth(y, 1);
    NextMonth(y, 2);
    NextMonth(y, 3);
    NextMonth(y, 4);
  }

  lemma {:induction false} NoDaysBeforeJanuary(y: int)
    ensures DaysBefore(y, 1) == 0
  {}

  lemma {:induction false} MayToAugust(y: int)
    ensures DaysBefore(y, 9) == DaysBefore(y, 5) + 123
  {
    hide DaysBefore;
    NextMonth(y, 5);
    NextMonth(y, 6);
    NextMonth(y, 7);
    NextMonth(y, 8);
  }

  lemma {:induction false} SeptemberToNovember(y: int)
    ensures DaysBefore(y, 12) == DaysBefore(y, 9) + 91
  {
    hide DaysBefore;
    NextMonth(y, 9);
    NextMonth(y, 10);
    NextMonth(y, 11);
  }

  /** A year's months add up to the year. */
  lemma YearTurns(y: int)
    ensures First(y + 1, 1) == First(y, 12) + 31
  {
    YearLength(y);
    NoDaysBeforeJanuary(y + 1);
    DaysBeforeMay(y);
    MayToAugust(y);
    SeptemberToNovember(y);
    hide DaysBefore, YearStart;
    assert First(y, 12) == YearStart(y) + DaysBefore(y, 12);
  }

  lemma MonthFollows(y: int, m: nat)
    requires m >= 1
    ensures First(y, m + 1) == First(y, m) + DaysInMonth(y, m)
  {
    NextMonth(y, m);
    hide DaysBefore, DaysInMonth, YearStart;
  }

  lemma MonthNumbers(k: nat)
    ensures k % 12 + 1 == 12 ==> (k + 1) / 12 == k / 12 + 1 && (k + 1) % 12 == 0
    ensures k % 12 + 1 < 12 ==> (k + 1) / 12 == k / 12 && (k + 1) % 12 == k % 12 + 1
  {}

  /** Months tile the calendar: each starts where the one before it ends. */
  lemma MonthsTile(k: nat)
    ensures FirstOf(k + 1) == FirstOf(k) + DaysOf(k) && 28 <= DaysOf(k) <= 31
  {
    hide First;
    var y, m := k / 12, k % 12 + 1;
    MonthNumbers(k);
    if m == 12 { YearTurns(y); } else { MonthFollows(y, m); }
  }

  /** The month a day falls in. */
  function MonthOf(day: int): (k: nat)
    requires day >= 1
    ensures k >= 12 && FirstOf(k) <= day < FirstOf(k + 1)
  {
    assert FirstOf(12) == 1;
    MonthFrom(day, 12)
  }

  function MonthFrom(day: int, k: nat): (r: nat)
    requires FirstOf(k) <= day
    ensures r >= k && FirstOf(r) <= day < FirstOf(r + 1)
    decreases day - FirstOf(k)
  {
    hide FirstOf, DaysOf;
    MonthsTile(k);
    if day < FirstOf(k + 1) then k else MonthFrom(day, k + 1)
  }

  // ---- Third Fridays ------------------------------------------------------

  /** Monday is 0. */
  function Weekday(day: int): int { (day + 6) % 7 }

  function ThirdFriday(y: int, m: nat): int {
    var first := First(y, m);
    first + (4 - Weekday(first)) % 7 + 14
  }

  function ThirdFridayOf(k: nat): int { ThirdFriday(k / 12, k % 12 + 1) }

  /** A day is the third Friday of a month exactly when it is a Friday dated the 15th to the 21st of it. */
  lemma ThirdFridayIff(k: nat, day: int)
    ensures day == ThirdFridayOf(k) <==> Weekday(day) == 4 && 15 <= day - FirstOf(k) + 1 <= 21
  {
    hide First;
    var first := FirstOf(k);
    var gap := (4 - Weekday(first)) % 7;
    assert (first + gap + 14 + 6) % 7 == 4;
    if Weekday(day) == 4 && first + 14 <= day <= first + 20 {
      assert (day - (first + gap + 14)) % 7 == 0 && -6 <= day - (first + gap + 14) <= 6;
    }
  }

  lemma ThirdFridaySpan(k: nat)
    ensures FirstOf(k) + 14 <= ThirdFridayOf(k) <= FirstOf(k) + 20 && ThirdFridayOf(k) % 7 == 5
  {
    ThirdFridayIff(k, ThirdFridayOf(k));
    hide FirstOf, ThirdFridayOf;
  }

  lemma FridaysAMonthApart(a: int, b: int)
    requires a % 7 == 5 && b % 7 == 5 && 22 <= b - a <= 37
    ensures b - a == 28 || b - a == 35
  {
    var weeks := (b - a) / 7;
    assert (b - a) % 7 == 0 && 4 <= weeks <= 5;
  }

  lemma ConsecutiveThirdFridays(k: nat)
    ensures ThirdFridayOf(k + 1) - ThirdFridayOf(k) in {28, 35}
  {
    hide FirstOf, ThirdFridayOf, DaysOf;
    ThirdFridaySpan(k);
    ThirdFridaySpan(k + 1);
    MonthsTile(k);
    FridaysAMonthApart(ThirdFridayOf(k), ThirdFridayOf(k + 1));
  }

  lemma {:induction false} LaterThirdFriday(k: nat, n: nat)
    ensures ThirdFridayOf(k + n) >= ThirdFridayOf(k) + 28 * n
  {
    hide ThirdFridayOf;
    if n > 0 {
      LaterThirdFriday(k, n - 1);
      ConsecutiveThirdFridays(k + n - 1);
    }
  }

  // ---- The expiry a session is priced against -----------------------------

  function Expiries(session: int): seq<int>
    requires session >= 1
  {
    var k := MonthOf(session);
    [ThirdFridayOf(k), ThirdFridayOf(k + 1), ThirdFridayOf(k + 2), ThirdFridayOf(k + 3)]
  }

  lemma MonthNumber(year: nat, month: nat, k: nat)
    requires 1 <= month <= 12 && 12 * year + month - 1 == k
    ensures ThirdFriday(year, month) == ThirdFridayOf(k)
  {
    hide ThirdFriday;
    assert k / 12 == year && k % 12 + 1 == month;
  }

  /** Third Fridays of a month and the next three, stepping over the year's end. */
  method MonthlyExpiriesAround(session: int) returns (expiries: seq<int>)
    requires session >= 1
    ensures expiries == Expiries(session)
  {
    hide ThirdFriday, ThirdFridayOf, MonthOf;
    var k := MonthOf(session);
    var year, month: nat := k / 12, k % 12 + 1;
    expiries := [];
    for i := 0 to 4
      invariant 1 <= month <= 12 && 12 * year + month - 1 == k + i
      invariant expiries == Expiries(session)[..i]
    {
      MonthNumber(year, month, k + i);
      expiries := expiries + [ThirdFriday(year, month)];
      month := month + 1;
      if month > 12 { year, month := year + 1, 1; }
    }
  }

  predicate InBand(expiry: int, session: int) { DTE_MIN <= expiry - session <= DTE_MAX }

  function Drift(expiry: int, session: int): nat {
    if expiry - session >= DTE_MIDDLE then expiry - session - DTE_MIDDLE else DTE_MIDDLE - (expiry - session)
  }

  /** The usable expiry nearest the middle of the band, the earlier of two equally near. */
  function Nearest(expiries: seq<int>, session: int): (r: Option<int>)
    ensures r.Some? ==> r.value in expiries && InBand(r.value, session)
    ensures r.Some? ==> forall e :: e in expiries && InBand(e, session) ==> Drift(r.value, session) <= Drift(e, session)
    ensures r.None? ==> forall e :: e in expiries ==> !InBand(e, session)
  {
    if expiries == [] then None
    else
      var front, last := expiries[..|expiries| - 1], expiries[|expiries| - 1];
      var best := Nearest(front, session);
      assert forall e :: e in expiries ==> e in front || e == last;
      if InBand(last, session) && (best.None? || Drift(last, session) < Drift(best.value, session)) then Some(last) else best
  }

  function ExpiryFor(session: int): Option<int>
    requires session >= 1
  {
    Nearest(Expiries(session), session)
  }

  /** Where this month's third Friday and the next three lie from a session. */
  lemma Reach(session: int)
    requires session >= 1
    ensures var k := MonthOf(session);
            && k >= 12
            && -16 <= ThirdFridayOf(k) - session <= 20
            && ThirdFridayOf(k + 1) - ThirdFridayOf(k) in {28, 35}
            && ThirdFridayOf(k + 2) - ThirdFridayOf(k + 1) in {28, 35}
            && ThirdFridayOf(k + 3) - session > DTE_MAX
            && ThirdFridayOf(k - 1) < session
  {
    hide ThirdFridayOf, FirstOf, DaysOf, MonthOf;
    var k := MonthOf(session);
    MonthsTile(k);
    MonthsTile(k - 1);
    ThirdFridaySpan(k);
    ThirdFridaySpan(k - 1);
    ConsecutiveThirdFridays(k);
    ConsecutiveThirdFridays(k + 1);
    ConsecutiveThirdFridays(k + 2);
  }

  /**
   * Every session has an expiry: no day falls between the bands. It is the nearest to the
   * middle among the third Fridays of every month there is, not just of the four looked at.
   */
  lemma ExpiryAlwaysFound(session: int, other: nat)
    requires session >= 1
    ensures ExpiryFor(session).Some?
    ensures var e := ExpiryFor(session).value;
            InBand(e, session) && Weekday(e) == 4 && Drift(e, session) <= 17
    ensures InBand(ThirdFridayOf(other), session) ==>
              Drift(ExpiryFor(session).value, session) <= Drift(ThirdFridayOf(other), session)
  {
    hide ThirdFridayOf, FirstOf, MonthOf, Nearest;
    var es := Expiries(session);
    Reach(session);
    assert es[0] in es && es[1] in es && es[2] in es;
    assert InBand(es[0], session) || InBand(es[1], session) || InBand(es[2], session);
    var e := ExpiryFor(session).value;
    IsThirdFriday(session, e);
    if InBand(ThirdFridayOf(other), session) { OnlyTheNextThree(session, other); }
  }

  lemma IsThirdFriday(session: int, e: int)
    requires session >= 1 && e in Expiries(session)
    ensures Weekday(e) == 4
  {
    hide ThirdFridayOf, FirstOf, MonthOf;
    var k := MonthOf(session);
    var i :| 0 <= i < 4 && e == Expiries(session)[i];
    assert e == ThirdFridayOf(k + i);
    ThirdFridaySpan(k + i);
  }

  /** A third Friday inside the band belongs to the session's month or one of the next two. */
  lemma OnlyTheNextThree(session: int, other: nat)
    requires session >= 1 && InBand(ThirdFridayOf(other), session)
    ensures ThirdFridayOf(other) in Expiries(session) && MonthOf(session) <= other <= MonthOf(session) + 2
  {
    hide ThirdFridayOf, FirstOf, MonthOf;
    var k := MonthOf(session);
    Reach(session);
    if other > k + 2 {
      LaterThirdFriday(k + 3, other - (k + 3));
    } else if other < k {
      LaterThirdFriday(other, k - 1 - other);
    } else {
      assert Expiries(session)[other - k] == ThirdFridayOf(other);
    }
  }

  // ---- The builder's own test for a standard monthly ----------------------

  /** Computed from the day's own month, written separately from the backfill's. */
  predicate IsStandardMonthly(day: int)
    requires day >= 1
  {
    var first := FirstOf(MonthOf(day));
    day == first + (4 - Weekday(first)) % 7 + 14
  }

  lemma {:induction false} FirstsIncrease(k: nat, j: nat)
    requires k < j
    ensures FirstOf(k) + 28 <= FirstOf(j)
    decreases j - k
  {
    hide FirstOf, DaysOf;
    MonthsTile(j - 1);
    if k < j - 1 { FirstsIncrease(k, j - 1); }
  }

  lemma MonthIsUnique(day: int, k: nat)
    requires day >= 1 && FirstOf(k) <= day < FirstOf(k + 1)
    ensures MonthOf(day) == k
  {
    hide FirstOf, MonthOf;
    var j := MonthOf(day);
    if j < k { if j + 1 < k { FirstsIncrease(j + 1, k); } }
    if k < j { if k + 1 < j { FirstsIncrease(k + 1, j); } }
  }

  /** The two modules agree: the builder calls a day a standard monthly exactly when it is some month's target here. */
  lemma StandardMonthlyIff(day: int)
    requires day >= 1
    ensures IsStandardMonthly(day) <==> exists k: nat :: k >= 12 && day == ThirdFridayOf(k)
  {
    hide FirstOf, ThirdFridayOf, MonthOf, IsStandardMonthly;
    var k := MonthOf(day);
    SameFormula(day);
    if exists j: nat :: j >= 12 && day == ThirdFridayOf(j) {
      var j: nat :| j >= 12 && day == ThirdFridayOf(j);
      TargetInItsMonth(day, j);
    }
  }

  lemma SameFormula(day: int)
    requires day >= 1
    ensures IsStandardMonthly(day) <==> day == ThirdFridayOf(MonthOf(day))
  {
    hide MonthOf, First;
  }

  lemma TargetInItsMonth(day: int, j: nat)
    requires day >= 1 && j >= 12 && day == ThirdFridayOf(j)
    ensures MonthOf(day) == j
  {
    hide FirstOf, ThirdFridayOf, DaysOf, MonthOf;
    ThirdFridaySpan(j);
    MonthsTile(j);
    MonthIsUnique(day, j);
  }
}
