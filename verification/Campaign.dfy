/** Pacing a campaign by sessions: when opens are still permitted and when everything is flattened. */
module Campaign {
  import opened Models
  import opened Collections
  import Sizing

  /** Minutes of exchange-local time. */
  datatype Session = Session(open: int, close: int)

  type Calendar = map<int, Session>

  function SessionDay(at: int): int { at / 1440 }

  /** Cached rows are keyed by their own day; two sessions therefore never overlap. */
  ghost predicate ValidCalendar(cal: Calendar) {
    forall d :: d in cal ==> cal[d].open < cal[d].close && SessionDay(cal[d].open) == d == SessionDay(cal[d].close)
  }

  datatype Plan = Plan(start: int, flattenMinutes: nat)

  function SessionsBetween(cal: Calendar, start: int, end: int): nat {
    if end < start then 0 else |set d | d in cal && start <= d <= end|
  }

  ghost function LastSessionClose(cal: Calendar, at: int): Option<int> {
    var closes := set d | d in cal && cal[d].open <= at :: cal[d].close;
    if closes == {} then None else Some(Latest(closes))
  }

  predicate MarketIsOpen(cal: Calendar, at: int) {
    SessionDay(at) in cal && cal[SessionDay(at)].open <= at <= cal[SessionDay(at)].close
  }

  function SessionsElapsed(cal: Calendar, plan: Plan, today: int): nat {
    var elapsed := SessionsBetween(cal, plan.start, today);
    if elapsed < 1 then 1 else elapsed
  }

  function SessionsRemaining(cal: Calendar, plan: Plan, days: nat, today: int): nat {
    var left := days - SessionsElapsed(cal, plan, today) + 1;
    if left < 0 then 0 else left
  }

  /** The horizon half of the sizing state on a given day. */
  function AtHorizon(state: Sizing.SizingState, cal: Calendar, plan: Plan, days: nat, today: int): Sizing.SizingState {
    state.(sessionsRemaining := Some(SessionsRemaining(cal, plan, days, today)),
           isFirstSession := SessionsElapsed(cal, plan, today) <= 1)
  }

  predicate PermitsOpens(state: Sizing.SizingState, cal: Calendar, plan: Plan, settings: Settings, today: int) {
    Sizing.HorizonScalar(AtHorizon(state, cal, plan, settings.campaignDays, today), settings) > 0.0
  }

  ghost predicate FlattenActive(cal: Calendar, plan: Plan, settings: Settings, now: int) {
    var today := SessionDay(now);
    if SessionsBetween(cal, plan.start, today) != settings.campaignDays then false
    else
      var close := LastSessionClose(cal, now);
      if close.None? || SessionDay(close.value) != today then false
      else close.value - plan.flattenMinutes <= now <= close.value
  }

  /** Opens are refused on the horizon's account exactly when the horizon does not permit them. */
  lemma SizingRefusesIff(strategy: Strategy, conviction: real, maxLoss: real, strike: Option<real>,
                         state: Sizing.SizingState, cal: Calendar, plan: Plan, settings: Settings, today: int)
    requires settings.Valid() && (strike.Some? ==> strike.value > 0.0)
    ensures Sizing.Size(strategy, conviction, maxLoss, AtHorizon(state, cal, plan, settings.campaignDays, today), settings, strike).blocked
              == Some(Sizing.CampaignHorizonClosed)
       <==> !PermitsOpens(state, cal, plan, settings, today)
  {
    hide Sizing.Budget, Sizing.Caps, SessionsRemaining, SessionsElapsed;
  }

  // ---- Ranks --------------------------------------------------------------

  /** Sessions of the campaign and after it. */
  function From(cal: Calendar, start: int): set<int> { set d | d in cal && d >= start }

  function UpTo(days: set<int>, d: int): set<int> { set e | e in days && e <= d }

  /** The first `n` of a set of days. */
  function FirstDays(days: set<int>, n: nat): set<int> { set d | d in days && |UpTo(days, d)| <= n }

  lemma RankIsCount(cal: Calendar, start: int, d: int)
    requires d >= start
    ensures SessionsBetween(cal, start, d) == |UpTo(From(cal, start), d)|
  {
    assert (set e | e in cal && start <= e <= d) == UpTo(From(cal, start), d);
  }

  lemma RankGrows(days: set<int>, d: int, e: int)
    requires e in days && d < e
    ensures |UpTo(days, d)| < |UpTo(days, e)|
  {
    assert UpTo(days, d) <= UpTo(days, e) - {e};
    SmallerSubset(UpTo(days, d), UpTo(days, e) - {e});
  }

  lemma {:induction false} FirstDaysCount(days: set<int>, n: nat)
    ensures |FirstDays(days, n)| == if n <= |days| then n else |days|
    decreases n
  {
    if n == 0 {
      forall d | d in days ensures |UpTo(days, d)| > 0 { assert d in UpTo(days, d); }
      assert FirstDays(days, 0) == {};
    } else {
      FirstDaysCount(days, n - 1);
      var first := FirstDays(days, n - 1);
      assert FirstDays(days, n - 1) <= FirstDays(days, n);
      if days - first == {} {
        forall d | d in days ensures d in first { assert d in days - first || d in first; }
        assert first == days && FirstDays(days, n) == days;
      } else {
        assert days == first + (days - first);
        NextDay(days, n);
      }
    }
  }

  /** Up to the earliest day left out, the days are the first ones and that day. */
  lemma EarlierDays(days: set<int>, k: nat, d: int)
    requires d in days - FirstDays(days, k) && forall e :: e in days - FirstDays(days, k) ==> d <= e
    ensures UpTo(days, d) == FirstDays(days, k) + {d}
  {
    var first := FirstDays(days, k);
    forall e | e in first ensures e < d { if d < e { RankGrows(days, d, e); } }
    forall e | e in days ensures e <= d <==> e in first + {d} { assert e in first || e in days - first; }
  }

  /** The earliest day not among the first `n - 1` is the `n`-th. */
  lemma NextDay(days: set<int>, n: nat)
    requires n > 0 && |FirstDays(days, n - 1)| == (if n - 1 <= |days| then n - 1 else |days|)
    requires days - FirstDays(days, n - 1) != {}
    ensures |FirstDays(days, n)| == n <= |days|
  {
    var first := FirstDays(days, n - 1);
    var rest := days - first;
    assert days == first + rest;
    assert |rest| > 0;
    EarliestExists(rest);
    var d :| d in rest && forall e :: e in rest ==> d <= e;
    EarlierDays(days, n - 1, d);
    forall e | e in days ensures |UpTo(days, e)| <= n <==> e in first + {d} {
      if e in rest && e != d { RankGrows(days, d, e); }
    }
    assert FirstDays(days, n) == first + {d};
  }

  // ---- Opens --------------------------------------------------------------

  /** On the `k`-th session opens are permitted exactly when `k` leaves more than the minimum to hold. */
  lemma PermitsIff(state: Sizing.SizingState, cal: Calendar, plan: Plan, settings: Settings, today: int)
    requires settings.Valid() && today in cal && today >= plan.start
    ensures PermitsOpens(state, cal, plan, settings, today)
       <==> SessionsBetween(cal, plan.start, today) + settings.minSessionsToHold <= settings.campaignDays
  {
    RankIsCount(cal, plan.start, today);
    assert today in UpTo(From(cal, plan.start), today);
  }

  /** Before the start date the campaign counts as being in its first session. */
  lemma BeforeTheStart(state: Sizing.SizingState, cal: Calendar, plan: Plan, settings: Settings, today: int)
    requires settings.Valid() && today < plan.start
    ensures PermitsOpens(state, cal, plan, settings, today) <==> settings.minSessionsToHold < settings.campaignDays
  {
  }

  ghost function OpenSessions(state: Sizing.SizingState, cal: Calendar, plan: Plan, settings: Settings): set<int> {
    set d | d in From(cal, plan.start) && PermitsOpens(state, cal, plan, settings, d)
  }

  /** Sessions the horizon leaves for opening: the campaign less the minimum to hold, never negative. */
  function OpenCount(settings: Settings): nat {
    if settings.campaignDays > settings.minSessionsToHold then settings.campaignDays - settings.minSessionsToHold else 0
  }

  /** Opens are permitted on exactly the earliest `max(0, days - minimum)` cached sessions, or on all there are. */
  lemma OpensOnTheFirstSessions(state: Sizing.SizingState, cal: Calendar, plan: Plan, settings: Settings)
    requires settings.Valid()
    ensures var sessions, n := From(cal, plan.start), OpenCount(settings);
            && OpenSessions(state, cal, plan, settings) == FirstDays(sessions, n)
            && |OpenSessions(state, cal, plan, settings)| == (if n <= |sessions| then n else |sessions|)
  {
    hide PermitsOpens;
    var sessions, n := From(cal, plan.start), OpenCount(settings);
    forall d | d in sessions
      ensures PermitsOpens(state, cal, plan, settings, d) <==> |UpTo(sessions, d)| <= n
    {
      PermitsIff(state, cal, plan, settings, d);
      RankIsCount(cal, plan.start, d);
      assert d in UpTo(sessions, d);
    }
    assert OpenSessions(state, cal, plan, settings) == FirstDays(sessions, n);
    FirstDaysCount(sessions, n);
  }

  /** Once the cache holds that many sessions their number is exactly `max(0, days - minimum)`. */
  lemma OpensOnExactlyTheFirstSessions(state: Sizing.SizingState, cal: Calendar, plan: Plan, settings: Settings)
    requires settings.Valid() && |From(cal, plan.start)| >= OpenCount(settings)
    ensures |OpenSessions(state, cal, plan, settings)| == OpenCount(settings)
    ensures OpenSessions(state, cal, plan, settings) == FirstDays(From(cal, plan.start), OpenCount(settings))
  {
    hide OpenSessions;
    OpensOnTheFirstSessions(state, cal, plan, settings);
  }

  // ---- Flatten ------------------------------------------------------------

  /** The last close is today's exactly when today's session has opened. */
  lemma LastCloseIsTodaysIff(cal: Calendar, now: int)
    requires ValidCalendar(cal)
    ensures var close, today := LastSessionClose(cal, now), SessionDay(now);
            && (close.Some? && SessionDay(close.value) == today <==> today in cal && cal[today].open <= now)
            && (today in cal && cal[today].open <= now ==> close == Some(cal[today].close))
  {
    var closes := set d | d in cal && cal[d].open <= now :: cal[d].close;
    var today := SessionDay(now);
    if today in cal && cal[today].open <= now {
      assert cal[today].close in closes;
      var last := Latest(closes);
      var d :| d in cal && cal[d].open <= now && cal[d].close == last;
      assert d <= today;
    } else if closes != {} {
      var last := Latest(closes);
      var d :| d in cal && cal[d].open <= now && cal[d].close == last;
      assert SessionDay(last) == d;
    }
  }

  /** The last minutes of the campaign's last session, while it is open. */
  predicate InClosingWindow(cal: Calendar, plan: Plan, settings: Settings, now: int) {
    var today := SessionDay(now);
    && today in cal && SessionsBetween(cal, plan.start, today) == settings.campaignDays
    && MarketIsOpen(cal, now) && cal[today].close - now <= plan.flattenMinutes
  }

  /** Flatten is active exactly inside the closing window of the campaign's last session. */
  lemma FlattenActiveIff(cal: Calendar, plan: Plan, settings: Settings, now: int)
    requires ValidCalendar(cal)
    ensures FlattenActive(cal, plan, settings, now) <==> InClosingWindow(cal, plan, settings, now)
  {
    LastCloseIsTodaysIff(cal, now);
  }

  /** It can be active in one session only, and only while the market is open. */
  lemma FlattenIsOneSession(cal: Calendar, plan: Plan, settings: Settings, now: int, later: int)
    requires ValidCalendar(cal) && settings.Valid()
    requires FlattenActive(cal, plan, settings, now)
    ensures MarketIsOpen(cal, now) && SessionDay(now) >= plan.start
    ensures FlattenActive(cal, plan, settings, later) ==> SessionDay(later) == SessionDay(now)
  {
    FlattenActiveIff(cal, plan, settings, now);
    FlattenActiveIff(cal, plan, settings, later);
    if FlattenActive(cal, plan, settings, later) {
      SameRankSameDay(cal, plan.start, SessionDay(now), SessionDay(later));
    }
  }

  lemma SameRankSameDay(cal: Calendar, start: int, d: int, e: int)
    requires d in cal && e in cal && SessionsBetween(cal, start, d) == SessionsBetween(cal, start, e) > 0
    ensures d == e
  {
    RankIsCount(cal, start, d);
    RankIsCount(cal, start, e);
    if d < e { RankGrows(From(cal, start), d, e); }
    if e < d { RankGrows(From(cal, start), e, d); }
  }

  /** While flatten is active opens are refused exactly when a session must be held; in every later session, always. */
  lemma OpensDuringFlattenIff(state: Sizing.SizingState, cal: Calendar, plan: Plan, settings: Settings, now: int)
    requires ValidCalendar(cal) && settings.Valid() && FlattenActive(cal, plan, settings, now)
    ensures PermitsOpens(state, cal, plan, settings, SessionDay(now)) <==> settings.minSessionsToHold == 0
    ensures forall later :: later in cal && later > SessionDay(now) ==> !PermitsOpens(state, cal, plan, settings, later)
  {
    hide PermitsOpens, FlattenActive;
    var today := SessionDay(now);
    FlattenActiveIff(cal, plan, settings, now);
    assert today >= plan.start;
    PermitsIff(state, cal, plan, settings, today);
    forall later | later in cal && later > today ensures !PermitsOpens(state, cal, plan, settings, later) {
      PermitsIff(state, cal, plan, settings, later);
      RankIsCount(cal, plan.start, today);
      RankIsCount(cal, plan.start, later);
      RankGrows(From(cal, plan.start), today, later);
    }
  }

  lemma AtMostOne(days: set<int>)
    requires |days| <= 1
    ensures forall a, b | a in days && b in days :: a == b
  {
    forall a, b | a in days && b in days ensures a == b { SmallerSubset({a, b}, days); }
  }

  lemma OnlyOne(days: set<int>)
    requires forall a, b | a in days && b in days :: a == b
    ensures |days| <= 1
  {
    if days != {} {
      var a := Latest(days);
      assert forall b :: b in days <==> b == a;
      assert days == {a};
    }
  }

  /** It is the first session until a second one has begun, the days before the start included. */
  lemma FirstSessionIff(state: Sizing.SizingState, cal: Calendar, plan: Plan, days: nat, today: int)
    ensures AtHorizon(state, cal, plan, days, today).isFirstSession
       <==> forall a, b | a in cal && b in cal :: plan.start <= a <= today && plan.start <= b <= today ==> a == b
  {
    var begun := set d | d in cal && plan.start <= d <= today;
    assert AtHorizon(state, cal, plan, days, today).isFirstSession <==> |begun| <= 1;
    if |begun| <= 1 { AtMostOne(begun); } else if forall a, b | a in begun && b in begun :: a == b { OnlyOne(begun); }
    assert forall d :: d in begun <==> d in cal && plan.start <= d <= today;
  }

  // ---- The campaign's opening mark ----------------------------------------

  datatype EquityRow = EquityRow(ts: Option<int>, equity: Option<real>)

  predicate Qualifies(row: EquityRow, start: int) {
    row.ts.Some? && SessionDay(row.ts.value) >= start && row.equity.Some?
  }

  /** Newest first in, so the last qualifying row is the oldest: a later scan position always wins. */
  method EquityAtCampaignStart(history: seq<EquityRow>, start: int) returns (opening: Option<real>)
    ensures opening.None? <==> forall i :: 0 <= i < |history| ==> !Qualifies(history[i], start)
    ensures opening.Some? ==>
              exists i :: 0 <= i < |history| && Qualifies(history[i], start) && opening == history[i].equity
                && forall j :: i < j < |history| ==> !Qualifies(history[j], start)
  {
    opening := None;
    for i := 0 to |history|
      invariant opening.None? <==> forall k :: 0 <= k < i ==> !Qualifies(history[k], start)
      invariant opening.Some? ==>
                  exists k :: 0 <= k < i && Qualifies(history[k], start) && opening == history[k].equity
                    && forall j :: k < j < i ==> !Qualifies(history[j], start)
    {
      if Qualifies(history[i], start) { opening := history[i].equity; }
    }
  }
}
