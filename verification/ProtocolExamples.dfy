/** Two runs in which the broker ends up working two entries on one underlying. */
module ProtocolExamples {
  import opened Models
  import opened Store
  import opened Protocol
  import opened ProtocolRuns

  const LIVE_CONFIG := Config(false, 1)
  const WORKING := Report("new", None)

  /** Inserted, picked up, its slot found free, approved on the page read, and about to be sent. */
  function SendOne(underlying: string, seen: set<ClientId>): seq<Event> {
    [Insert(0, underlying, Open, Pending), StartTick(false), TakeNext(Priced), Verdict(true, seen)]
  }

  /** Idle, nothing pending, no active entry on the underlying, and no working order on it among those seen. */
  ghost predicate Quiet(w: World, underlying: string, seen: set<ClientId>) {
    && w.pc == Idle && !w.kill && Om(w.last + 1) !in w.orders && ReadsInFlight(seen, w.orders)
    && (forall pid :: pid in w.proposals ==> pid <= w.last && w.proposals[pid].status != Pending)
    && (forall pid :: pid in w.proposals && IsActive(w.proposals[pid].status) ==> w.proposals[pid].underlying != underlying)
    && (forall id :: id in seen ==> w.orders[id].underlying != underlying)
  }

  function WithEntry(w: World, underlying: string, pc: Pc): World {
    w.(proposals := w.proposals[w.last + 1 := Proposal(0, underlying, Open, Pending)], last := w.last + 1,
       kill := false, pc := pc)
  }

  lemma PickUp(w: World, u: string, seen: set<ClientId>)
    requires Quiet(w, u, seen)
    ensures Step(WithEntry(w, u, Idle), StartTick(false), LIVE_CONFIG) == Some(WithEntry(w, u, Batch([w.last + 1])))
  {
    hide ReadsInFlight, PendingBatch;
    OnlyPending(WithEntry(w, u, Idle).proposals, w.last + 1);
  }

  lemma CheckSlot(w: World, u: string, seen: set<ClientId>)
    requires Quiet(w, u, seen)
    ensures Step(WithEntry(w, u, Batch([w.last + 1])), TakeNext(Priced), LIVE_CONFIG)
         == Some(WithEntry(w, u, Gate(w.last + 1, [])))
  {
    hide ReadsInFlight;
    var v := WithEntry(w, u, Batch([w.last + 1]));
    assert u !in ActiveUnderlyings(v.proposals, Some(w.last + 1));
    hide ActiveUnderlyings;
    assert [w.last + 1][1..] == [];
  }

  lemma Approve(w: World, u: string, seen: set<ClientId>)
    requires Quiet(w, u, seen)
    ensures Step(WithEntry(w, u, Gate(w.last + 1, [])), Verdict(true, seen), LIVE_CONFIG)
         == Some(WithEntry(w, u, Place(Om(w.last + 1), [])))
  {
    hide InFlight;
  }

  /** One more pending entry over a quiet store reaches the point of being sent. */
  lemma {:induction false} ReachesBroker(w: World, u: string, seen: set<ClientId>)
    requires Quiet(w, u, seen)
    ensures Run(w, SendOne(u, seen), LIVE_CONFIG) == Some(WithEntry(w, u, Place(Om(w.last + 1), [])))
  {
    hide Run;
    var id := w.last + 1;
    PickUp(w, u, seen);
    CheckSlot(w, u, seen);
    Approve(w, u, seen);
    assert Step(w, Insert(0, u, Open, Pending), LIVE_CONFIG) == Some(WithEntry(w, u, Idle));
    hide Step, WithEntry, Quiet;
    FourSteps(w, WithEntry(w, u, Idle), WithEntry(w, u, Batch([id])), WithEntry(w, u, Gate(id, [])),
              WithEntry(w, u, Place(Om(id), [])),
              Insert(0, u, Open, Pending), StartTick(false), TakeNext(Priced), Verdict(true, seen));
  }

  lemma {:induction false} FourSteps(w: World, w1: World, w2: World, w3: World, w4: World, a: Event, b: Event,
                                     c: Event, d: Event)
    requires Step(w, a, LIVE_CONFIG) == Some(w1) && Step(w1, b, LIVE_CONFIG) == Some(w2)
    requires Step(w2, c, LIVE_CONFIG) == Some(w3) && Step(w3, d, LIVE_CONFIG) == Some(w4)
    ensures Run(w, [a, b, c, d], LIVE_CONFIG) == Some(w4)
  {
    hide Step;
    var es := [a, b, c, d];
    assert es[1..] == [b, c, d] && [b, c, d][1..] == [c, d] && [c, d][1..] == [d] && [d][1..] == [];
    RunOne(w3, d, LIVE_CONFIG);
    assert Run(w2, [c, d], LIVE_CONFIG) == Run(w3, [d], LIVE_CONFIG);
    assert Run(w1, [b, c, d], LIVE_CONFIG) == Run(w2, [c, d], LIVE_CONFIG);
  }

  lemma {:induction false} NonePending(ps: Proposals, n: nat)
    requires forall pid :: pid in ps && pid <= n ==> ps[pid].status != Pending
    ensures PendingUpTo(ps, n) == []
  {
    if n > 0 { NonePending(ps, n - 1); }
  }

  lemma OnlyPending(ps: Proposals, id: nat)
    requires id > 0 && id in ps && ps[id].status == Pending
    requires forall pid :: pid in ps && pid != id ==> pid < id && ps[pid].status != Pending
    ensures PendingBatch(ps, id, 5) == [id]
  {
    NonePending(ps, id - 1);
  }

  /** The one entry so far, with its status, its row if any, and the broker working its order. */
  function AfterFirst(status: Status, orders: Orders, pc: Pc): World {
    World(map[1 := Proposal(0, "SPY", Open, status)], 1, orders, |orders|, map[Om(1) := WORKING], pc, false)
  }

  const FAILED_ROW: Orders := map[Om(1) := OrderRow(1, 1, "SPY", "failed")]

  lemma FailedIsSettled()
    ensures Settled("failed") && InFlight(FAILED_ROW) == {}
  {
    assert Lower("failed") == "failed";
  }

  /** The broker works entries 1 and 2, both on one underlying. */
  ghost predicate Doubled(r: Option<World>) {
    && r.Some? && Live(r.value, Om(1)) && Live(r.value, Om(2))
    && 1 in r.value.proposals && 2 in r.value.proposals
    && r.value.proposals[1].underlying == r.value.proposals[2].underlying
  }

  lemma AcceptSecond(status: Status, orders: Orders)
    ensures Doubled(Step(WithEntry(AfterFirst(status, orders, Idle), "SPY", Place(Om(2), [])), Answer(Accepted(WORKING)), LIVE_CONFIG))
  {
    SentStatusesAreOpen();
    hide Settled;
  }

  /** A quiet book after the first entry lets a second one through, and the broker works both. */
  lemma {:induction false} SecondEntryGoesLive(es: seq<Event>, status: Status, orders: Orders)
    requires Run(Init(), es, LIVE_CONFIG) == Some(AfterFirst(status, orders, Idle))
    requires !IsActive(status) && InFlight(orders) == {} && Om(2) !in orders
    ensures Doubled(Run(Init(), es + SendOne("SPY", {}) + [Answer(Accepted(WORKING))], LIVE_CONFIG))
  {
    hide Step, Run, Doubled, SendOne;
    var w := AfterFirst(status, orders, Idle);
    assert Quiet(w, "SPY", {});
    ReachesBroker(w, "SPY", {});
    AcceptSecond(status, orders);
    hide WithEntry, InFlight;
    RunAppend(Init(), es, SendOne("SPY", {}), LIVE_CONFIG);
    RunAppend(Init(), es + SendOne("SPY", {}), [Answer(Accepted(WORKING))], LIVE_CONFIG);
    RunOne(WithEntry(w, "SPY", Place(Om(2), [])), Answer(Accepted(WORKING)), LIVE_CONFIG);
  }

  lemma InitIsQuiet(u: string)
    ensures Quiet(Init(), u, {})
  {
    assert InFlight(map[]) == {};
  }

  // ---- A submission that landed unseen ------------------------------------

  const LOST: seq<Event> :=
    [Answer(Lost(Some(WORKING))), WriteRow, WriteStatus, StartReconcile([])]

  lemma MarkFirst(next: Status, orders: Orders)
    ensures Step(AfterFirst(Pending, orders, Mark(1, [], next)), WriteStatus, LIVE_CONFIG)
         == Some(AfterFirst(next, orders, Batch([])))
  {
    var w := AfterFirst(Pending, orders, Mark(1, [], next));
    assert WithStatus(w.proposals, 1, next) == AfterFirst(next, orders, Idle).proposals;
  }

  lemma ReconcileNothing(status: Status, orders: Orders)
    requires InFlight(orders) == {}
    ensures Step(AfterFirst(status, orders, Batch([])), StartReconcile([]), LIVE_CONFIG)
         == Some(AfterFirst(status, orders, Polling([])))
  {
    hide InFlight;
  }

  lemma LostAnswer()
    ensures Step(WithEntry(Init(), "SPY", Place(Om(1), [])), Answer(Lost(Some(WORKING))), LIVE_CONFIG)
         == Some(AfterFirst(Pending, map[], Record(Om(1), [], "failed", Failed)))
  {
    var a := WithEntry(Init(), "SPY", Place(Om(1), []));
    var b := AfterFirst(Pending, map[], Record(Om(1), [], "failed", Failed));
    assert Answered(a, Lost(Some(WORKING))) == Some(b);
  }

  lemma FailedRowWritten()
    ensures Step(AfterFirst(Pending, map[], Record(Om(1), [], "failed", Failed)), WriteRow, LIVE_CONFIG)
         == Some(AfterFirst(Pending, FAILED_ROW, Mark(1, [], Failed)))
  {
    assert WithOrder(map[], Om(1), OrderRow(1, 1, "SPY", "failed")) == FAILED_ROW;
    assert RowWritten(AfterFirst(Pending, map[], Record(Om(1), [], "failed", Failed)))
        == AfterFirst(Pending, FAILED_ROW, Mark(1, [], Failed));
  }

  lemma LostSteps()
    ensures Run(WithEntry(Init(), "SPY", Place(Om(1), [])), LOST, LIVE_CONFIG) == Some(AfterFirst(Failed, FAILED_ROW, Polling([])))
  {
    hide Run, Step, AfterFirst, WithEntry, Settled, InFlight;
    FailedIsSettled();
    LostAnswer();
    FailedRowWritten();
    MarkFirst(Failed, FAILED_ROW);
    ReconcileNothing(Failed, FAILED_ROW);
    FourSteps(WithEntry(Init(), "SPY", Place(Om(1), [])),
              AfterFirst(Pending, map[], Record(Om(1), [], "failed", Failed)),
              AfterFirst(Pending, FAILED_ROW, Mark(1, [], Failed)),
              AfterFirst(Failed, FAILED_ROW, Batch([])),
              AfterFirst(Failed, FAILED_ROW, Polling([])),
              Answer(Lost(Some(WORKING))), WriteRow, WriteStatus, StartReconcile([]));
  }

  lemma {:induction false} TickEnds(es: seq<Event>, status: Status, orders: Orders)
    requires Run(Init(), es, LIVE_CONFIG) == Some(AfterFirst(status, orders, Polling([])))
    ensures Run(Init(), es + [EndTick], LIVE_CONFIG) == Some(AfterFirst(status, orders, Idle))
  {
    RunAppend(Init(), es, [EndTick], LIVE_CONFIG);
    RunOne(AfterFirst(status, orders, Polling([])), EndTick, LIVE_CONFIG);
    hide Run;
  }

  /** A submission reported as failed that landed, then another entry: two live orders on one underlying. */
  lemma LandedLossDoublesEntry()
    ensures Doubled(Run(Init(), SendOne("SPY", {}) + LOST + [EndTick] + SendOne("SPY", {}) + [Answer(Accepted(WORKING))], LIVE_CONFIG))
  {
    hide Step, Run, Doubled, AfterFirst, WithEntry, SendOne, Settled;
    InitIsQuiet("SPY");
    ReachesBroker(Init(), "SPY", {});
    hide InFlight;
    FailedIsSettled();
    LostSteps();
    RunAppend(Init(), SendOne("SPY", {}), LOST, LIVE_CONFIG);
    TickEnds(SendOne("SPY", {}) + LOST, Failed, FAILED_ROW);
    SecondEntryGoesLive(SendOne("SPY", {}) + LOST + [EndTick], Failed, FAILED_ROW);
  }

  // ---- A crash before the row ---------------------------------------------

  const CRASHED: seq<Event> := [Answer(Accepted(WORKING)), Crash, StartTick(false), TakeNext(Priced)]

  const RETRIED: seq<Event> := [Verdict(false, {}), WriteStatus, StartReconcile([])]

  lemma AcceptFirst()
    ensures Step(WithEntry(Init(), "SPY", Place(Om(1), [])), Answer(Accepted(WORKING)), LIVE_CONFIG)
         == Some(AfterFirst(Pending, map[], Record(Om(1), [], "submitted", Submitted)))
  {
    assert Answered(WithEntry(Init(), "SPY", Place(Om(1), [])), Accepted(WORKING))
        == Some(AfterFirst(Pending, map[], Record(Om(1), [], "submitted", Submitted)));
  }

  lemma CrashFirst()
    ensures Step(AfterFirst(Pending, map[], Record(Om(1), [], "submitted", Submitted)), Crash, LIVE_CONFIG)
         == Some(AfterFirst(Pending, map[], Idle))
  {}

  lemma RestartFirst()
    ensures Step(AfterFirst(Pending, map[], Idle), StartTick(false), LIVE_CONFIG) == Some(AfterFirst(Pending, map[], Batch([1])))
  {
    hide PendingBatch;
    OnlyPending(AfterFirst(Pending, map[], Idle).proposals, 1);
  }

  lemma RetakeFirst()
    ensures Step(AfterFirst(Pending, map[], Batch([1])), TakeNext(Priced), LIVE_CONFIG) == Some(AfterFirst(Pending, map[], Gate(1, [])))
  {
    assert ActiveUnderlyings(AfterFirst(Pending, map[], Idle).proposals, Some(1)) == {};
    hide ActiveUnderlyings;
    assert [1][1..] == [];
  }

  lemma CrashedSteps()
    ensures Run(WithEntry(Init(), "SPY", Place(Om(1), [])), CRASHED, LIVE_CONFIG) == Some(AfterFirst(Pending, map[], Gate(1, [])))
  {
    hide Run, Step, AfterFirst, WithEntry;
    AcceptFirst();
    CrashFirst();
    RestartFirst();
    RetakeFirst();
    FourSteps(WithEntry(Init(), "SPY", Place(Om(1), [])),
              AfterFirst(Pending, map[], Record(Om(1), [], "submitted", Submitted)), AfterFirst(Pending, map[], Idle),
              AfterFirst(Pending, map[], Batch([1])), AfterFirst(Pending, map[], Gate(1, [])),
              Answer(Accepted(WORKING)), Crash, StartTick(false), TakeNext(Priced));
  }

  lemma RetriedSteps()
    ensures Run(AfterFirst(Pending, map[], Gate(1, [])), RETRIED, LIVE_CONFIG) == Some(AfterFirst(Rejected, map[], Polling([])))
  {
    var e := AfterFirst(Pending, map[], Gate(1, []));
    var f := AfterFirst(Pending, map[], Mark(1, [], Rejected));
    var g := AfterFirst(Rejected, map[], Batch([]));
    var h := AfterFirst(Rejected, map[], Polling([]));
    assert Step(e, Verdict(false, {}), LIVE_CONFIG) == Some(f);
    MarkFirst(Rejected, map[]);
    assert InFlight(map[]) == {};
    ReconcileNothing(Rejected, map[]);
    hide Step, AfterFirst;
    assert RETRIED[1..] == [WriteStatus, StartReconcile([])] && RETRIED[1..][1..] == [StartReconcile([])];
    RunOne(g, StartReconcile([]), LIVE_CONFIG);
    assert Run(f, RETRIED[1..], LIVE_CONFIG) == Run(g, RETRIED[1..][1..], LIVE_CONFIG);
  }

  lemma RejectedStaysLive()
    ensures Live(AfterFirst(Rejected, map[], Idle), Om(1)) && InFlight(map[]) == {} && !IsActive(Rejected)
  {
    SentStatusesAreOpen();
  }

  lemma FirstIsRetried(es: seq<Event>)
    requires es == SendOne("SPY", {}) + CRASHED + RETRIED
    ensures Run(Init(), es, LIVE_CONFIG) == Some(AfterFirst(Rejected, map[], Polling([])))
  {
    InitIsQuiet("SPY");
    hide *;
    ReachesBroker(Init(), "SPY", {});
    CrashedSteps();
    RetriedSteps();
    assert Init().last == 0 by { NoneYetWritten(); }
    RunAppend(Init(), SendOne("SPY", {}), CRASHED, LIVE_CONFIG);
    RunAppend(Init(), SendOne("SPY", {}) + CRASHED, RETRIED, LIVE_CONFIG);
  }

  lemma NoneYetWritten()
    ensures Init().last == 0
  {}

  /**
   * The broker accepts, the agent dies before writing the row, and the retry is refused by the
   * risk gate: a rejected proposal with a live order no row mentions, and room for a second entry.
   */
  lemma CrashBeforeRowDoublesEntry()
    ensures var es := SendOne("SPY", {}) + CRASHED + RETRIED + [EndTick];
            && Run(Init(), es, LIVE_CONFIG) == Some(AfterFirst(Rejected, map[], Idle))
            && Live(AfterFirst(Rejected, map[], Idle), Om(1))
            && Doubled(Run(Init(), es + SendOne("SPY", {}) + [Answer(Accepted(WORKING))], LIVE_CONFIG))
  {
    RejectedStaysLive();
    hide *;
    var es := SendOne("SPY", {}) + CRASHED + RETRIED;
    FirstIsRetried(es);
    TickEnds(es, Rejected, map[]);
    SecondEntryGoesLive(es + [EndTick], Rejected, map[]);
  }
}
