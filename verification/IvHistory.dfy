/** The in-memory implied-vol series: a bounded newest-first list read as one value per session. */
module IvHistory {
  import opened Models
  import opened Collections

  const MEMORY_LIMIT: nat := 2000

  /** `ts` is in exchange-local minutes, so a session day is a count of whole days. */
  datatype IvRow = IvRow(ts: int, iv: Option<real>)

  function DayOf(ts: int): int { ts / 1440 }

  // ---- Writing ------------------------------------------------------------

  /** A bounded deque's `appendleft`: the oldest row falls off the far end. */
  function Push(rows: seq<IvRow>, row: IvRow): seq<IvRow> {
    var all := [row] + rows;
    if |all| <= MEMORY_LIMIT then all else all[..MEMORY_LIMIT]
  }

  function PushAll(rows: seq<IvRow>, added: seq<IvRow>): seq<IvRow> {
    if added == [] then rows else Push(PushAll(rows, added[..|added| - 1]), added[|added| - 1])
  }

  predicate OldestFirst(rows: seq<IvRow>) {
    forall i, j :: 0 <= i < j < |rows| ==> rows[i].ts <= rows[j].ts
  }

  lemma StillFirst(inner: seq<IvRow>, front: seq<IvRow>, row: IvRow, last: IvRow)
    requires multiset(inner) == multiset(front) + multiset{row}
    requires OldestFirst(inner) && OldestFirst(front + [last]) && row.ts <= last.ts
    ensures OldestFirst(inner + [last])
  {
    forall i | 0 <= i < |inner| ensures inner[i].ts <= last.ts {
      assert inner[i] in multiset(inner);
      if inner[i] != row {
        assert inner[i] in front;
        var k :| 0 <= k < |front| && front[k] == inner[i];
        assert (front + [last])[k].ts <= (front + [last])[|front|].ts;
      }
    }
  }

  function InsertByTs(rows: seq<IvRow>, row: IvRow): (r: seq<IvRow>)
    requires OldestFirst(rows)
    ensures OldestFirst(r) && multiset(r) == multiset(rows) + multiset{row}
  {
    if rows == [] || rows[|rows| - 1].ts <= row.ts then rows + [row]
    else
      var front, last := rows[..|rows| - 1], rows[|rows| - 1];
      assert rows == front + [last];
      var inner := InsertByTs(front, row);
      StillFirst(inner, front, row, last);
      inner + [last]
  }

  function SortByTs(rows: seq<IvRow>): (r: seq<IvRow>)
    ensures OldestFirst(r) && multiset(r) == multiset(rows)
  {
    if rows == [] then []
    else
      assert rows == rows[..|rows| - 1] + [rows[|rows| - 1]];
      InsertByTs(SortByTs(rows[..|rows| - 1]), rows[|rows| - 1])
  }

  // ---- Reading ------------------------------------------------------------

  /** Sessions with a usable reading. */
  function DaysWithIv(rows: seq<IvRow>): set<int> {
    set i | 0 <= i < |rows| && rows[i].iv.Some? :: DayOf(rows[i].ts)
  }

  function Later(days: set<int>, d: int): set<int> { set e | e in days && e > d }

  /** The latest `n` of a set of days. */
  function LatestDays(days: set<int>, n: nat): set<int> { set d | d in days && |Later(days, d)| < n }

  /** `row` is the first listed, hence latest, usable reading of its session. */
  ghost predicate LastOfDay(rows: seq<IvRow>, row: IvRow) {
    exists j :: 0 <= j < |rows| && rows[j] == row && row.iv.Some?
      && forall k :: 0 <= k < j && rows[k].iv.Some? ==> DayOf(rows[k].ts) != DayOf(row.ts)
  }

  /** A series no longer than the window is covered whole. */
  lemma AllDaysAreLatest(days: set<int>, n: nat)
    requires |days| <= n
    ensures LatestDays(days, n) == days
  {
    forall d | d in days ensures d in LatestDays(days, n) {
      assert Later(days, d) <= days - {d};
      SmallerSubset(Later(days, d), days - {d});
    }
  }

  lemma TakeLatest(days: set<int>, taken: set<int>, d: int)
    requires taken == LatestDays(days, |taken|) && taken <= days
    requires d in days - taken && forall e :: e in days - taken ==> e <= d
    requires forall t, e :: t in taken && e in days - taken ==> e < t
    ensures taken + {d} == LatestDays(days, |taken| + 1)
  {
    forall e | e in days ensures e > d <==> e in taken { assert e in days - taken || e in taken; }
    assert Later(days, d) == taken;
    var n := |taken|;
    forall e | e in days ensures |Later(days, e)| < n + 1 <==> e in taken + {d} {
      if e in taken {
        assert e in LatestDays(days, n);
      } else if e != d {
        assert e in days - taken;
        assert taken + {d} <= Later(days, e);
        SmallerSubset(taken + {d}, Later(days, e));
      }
    }
    assert forall e :: e in LatestDays(days, n + 1) <==> e in taken + {d};
  }

  lemma DaysOfConcat(a: seq<IvRow>, b: seq<IvRow>)
    ensures DaysWithIv(a + b) == DaysWithIv(a) + DaysWithIv(b)
  {
    var c := a + b;
    forall d | d in DaysWithIv(a) ensures d in DaysWithIv(c) {
      var i :| 0 <= i < |a| && a[i].iv.Some? && DayOf(a[i].ts) == d;
      assert c[i] == a[i];
    }
    forall d | d in DaysWithIv(b) ensures d in DaysWithIv(c) {
      var i :| 0 <= i < |b| && b[i].iv.Some? && DayOf(b[i].ts) == d;
      assert c[|a| + i] == b[i];
    }
  }

  /** While nothing is evicted, writing adds exactly the sessions written. */
  lemma {:induction false} PushAllAddsDays(rows: seq<IvRow>, added: seq<IvRow>)
    requires |rows| + |added| <= MEMORY_LIMIT
    ensures |PushAll(rows, added)| == |rows| + |added|
    ensures DaysWithIv(PushAll(rows, added)) == DaysWithIv(rows) + DaysWithIv(added)
  {
    if added == [] {
    } else {
      var front, last := added[..|added| - 1], added[|added| - 1];
      PushAllAddsDays(rows, front);
      DaysOfConcat([last], PushAll(rows, front));
      DaysOfConcat(front, [last]);
      assert added == front + [last];
    }
  }

  /** Added rows come out in front, last first; the rest follow as they were, and the far end falls off at the limit. */
  lemma {:induction false} PushAllShape(rows: seq<IvRow>, added: seq<IvRow>)
    requires |rows| <= MEMORY_LIMIT
    ensures var all := PushAll(rows, added);
            && |all| == (if |rows| + |added| <= MEMORY_LIMIT then |rows| + |added| else MEMORY_LIMIT)
            && forall k :: 0 <= k < |all| ==>
                 all[k] == if k < |added| then added[|added| - 1 - k] else rows[k - |added|]
  {
    if added != [] {
      var front, last := added[..|added| - 1], added[|added| - 1];
      PushAllShape(rows, front);
      var before, after := PushAll(rows, front), PushAll(rows, added);
      forall k | 0 <= k < |after|
        ensures after[k] == if k < |added| then added[|added| - 1 - k] else rows[k - |added|]
      {
        if k > 0 { assert after[k] == before[k - 1]; }
      }
    }
  }

  /** Bounded, and the newest readings in front: those just written are in time order at the head of the list. */
  ghost predicate NewestInFront(rows: seq<IvRow>, before: seq<IvRow>, added: nat) {
    && |rows| == (if |before| + added <= MEMORY_LIMIT then |before| + added else MEMORY_LIMIT)
    && (forall i, j :: 0 <= i < j < |rows| && j < added ==> rows[i].ts >= rows[j].ts)
    && (forall k :: added <= k < |rows| ==> rows[k] == before[k - added])
  }

  lemma {:induction false} SortedGoesInFront(rows: seq<IvRow>, sorted: seq<IvRow>)
    requires |rows| <= MEMORY_LIMIT && OldestFirst(sorted)
    ensures NewestInFront(PushAll(rows, sorted), rows, |sorted|)
  {
    hide PushAll;
    PushAllShape(rows, sorted);
  }

  lemma SameDays(a: seq<IvRow>, b: seq<IvRow>)
    requires multiset(a) == multiset(b)
    ensures DaysWithIv(a) == DaysWithIv(b)
  {
    SomeDays(a, b);
    SomeDays(b, a);
  }

  lemma SomeDays(a: seq<IvRow>, b: seq<IvRow>)
    requires multiset(a) == multiset(b)
    ensures DaysWithIv(a) <= DaysWithIv(b)
  {
    forall d | d in DaysWithIv(a) ensures d in DaysWithIv(b) {
      var i :| 0 <= i < |a| && a[i].iv.Some? && DayOf(a[i].ts) == d;
      assert a[i] in multiset(b);
      var j :| 0 <= j < |b| && b[j] == a[i];
    }
  }

  ghost predicate NewestDayFirst(daily: seq<IvRow>) {
    && (forall i :: 0 <= i < |daily| ==> daily[i].iv.Some?)
    && forall i, j :: 0 <= i < j < |daily| ==> DayOf(daily[i].ts) > DayOf(daily[j].ts)
  }

  /** One turn of the collecting loop. */
  lemma TakeTurn(days: set<int>, left: set<int>, taken: set<int>, d: int)
    requires taken + left == days && taken !! left && taken == LatestDays(days, |taken|)
    requires d in left && forall e :: e in left ==> e <= d
    requires forall t, e :: t in taken && e in left ==> e < t
    ensures (taken + {d}) + (left - {d}) == days && (taken + {d}) !! (left - {d})
    ensures |taken + {d}| == |taken| + 1 && taken + {d} == LatestDays(days, |taken| + 1)
    ensures forall t, e :: t in taken + {d} && e in left - {d} ==> e < t
  {
    hide LatestDays;
    assert days - taken == left;
    TakeLatest(days, taken, d);
    assert (taken + {d}) + (left - {d}) == days;
  }

  lemma EmptyDays(days: set<int>)
    ensures NewestDayFirst([]) && DaysWithIv([]) == {} && LatestDays(days, 0) == {}
  {
  }

  lemma AddDay(daily: seq<IvRow>, row: IvRow)
    requires NewestDayFirst(daily) && row.iv.Some? && forall d :: d in DaysWithIv(daily) ==> DayOf(row.ts) < d
    ensures NewestDayFirst(daily + [row])
    ensures DaysWithIv(daily + [row]) == DaysWithIv(daily) + {DayOf(row.ts)}
  {
    DaysOfConcat(daily, [row]);
    assert [row][0] == row;
    assert DaysWithIv([row]) == {DayOf(row.ts)};
    assert forall i :: 0 <= i < |daily| ==> DayOf(daily[i].ts) in DaysWithIv(daily);
  }

  class IvSeries {
    /** Newest first. */
    var rows: seq<IvRow>

    constructor ()
      ensures rows == []
    {
      rows := [];
    }

    /** Oldest reading in first, so the list stays newest first. */
    method AppendIvSnapshots(readings: seq<IvRow>) returns (n: nat)
      modifies this
      ensures n == |readings|
      ensures rows == PushAll(old(rows), SortByTs(readings))
      ensures |old(rows)| <= 2000 ==> |rows| <= 2000 && NewestInFront(rows, old(rows), |readings|)
    {
      n := |readings|;
      var sorted := SortByTs(readings);
      assert |sorted| == |multiset(sorted)| == |multiset(readings)|;
      for i := 0 to |sorted|
        invariant rows == PushAll(old(rows), sorted[..i])
      {
        assert sorted[..i + 1][..i] == sorted[..i];
        rows := Push(rows, sorted[i]);
      }
      assert sorted[..|sorted|] == sorted;
      if |old(rows)| <= MEMORY_LIMIT { SortedGoesInFront(old(rows), sorted); }
    }

    method LatestPerDay() returns (latest: map<int, IvRow>)
      ensures latest.Keys == DaysWithIv(rows)
      ensures forall d :: d in latest ==> DayOf(latest[d].ts) == d && latest[d].iv.Some? && LastOfDay(rows, latest[d])
    {
      latest := map[];
      for i := 0 to |rows|
        invariant latest.Keys == DaysWithIv(rows[..i])
        invariant forall d :: d in latest ==> DayOf(latest[d].ts) == d && LastOfDay(rows, latest[d])
      {
        assert rows[..i + 1] == rows[..i] + [rows[i]];
        DaysOfConcat(rows[..i], [rows[i]]);
        var day := DayOf(rows[i].ts);
        if rows[i].iv.Some? && day !in latest {
          assert LastOfDay(rows, rows[i]) by {
            assert forall k :: 0 <= k < i && rows[k].iv.Some? ==> DayOf(rows[..i][k].ts) in DaysWithIv(rows[..i]);
          }
          latest := latest[day := rows[i]];
        }
        assert DaysWithIv([rows[i]]) == if rows[i].iv.Some? then {day} else {};
      }
      assert rows[..|rows|] == rows;
    }

    /** One observation per session, newest first: the last usable reading of each of the latest `days` sessions. */
    method DailyIvHistory(days: nat) returns (daily: seq<IvRow>)
      ensures forall row :: row in daily ==> LastOfDay(rows, row)
      ensures NewestDayFirst(daily)
      ensures DaysWithIv(daily) == LatestDays(DaysWithIv(rows), days)
    {
      hide LatestDays, LastOfDay, NewestDayFirst, DaysWithIv;
      var latest := LatestPerDay();
      EmptyDays(latest.Keys);
      ghost var taken: set<int> := {};
      var left := latest.Keys;
      daily := [];
      while left != {} && |daily| < days
        invariant taken + left == latest.Keys && taken !! left
        invariant taken == DaysWithIv(daily) && |taken| == |daily| <= days
        invariant taken == LatestDays(latest.Keys, |taken|)
        invariant forall row :: row in daily ==> LastOfDay(rows, row)
        invariant forall t, e :: t in taken && e in left ==> e < t
        invariant NewestDayFirst(daily)
        decreases |left|
      {
        LatestExists(left);
        var d :| d in left && forall e :: e in left ==> e <= d;
        TakeTurn(latest.Keys, left, taken, d);
        AddDay(daily, latest[d]);
        daily := daily + [latest[d]];
        taken := taken + {d};
        left := left - {d};
      }
      if left == {} { AllDaysAreLatest(latest.Keys, days); }
    }

    method IvSessionDays(days: nat) returns (covered: set<int>)
      ensures covered == LatestDays(DaysWithIv(rows), days)
    {
      var daily := DailyIvHistory(days);
      covered := set i | 0 <= i < |daily| && daily[i].iv.Some? :: DayOf(daily[i].ts);
    }
  }
}
