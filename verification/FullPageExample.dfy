/** A run in which an entry is sent on beside another one, because fifty older orders fill the page the gate reads. */
module FullPageExample {
  import opened Models
  import opened Store
  import opened Protocol
  import opened ProtocolRuns
  import opened ProtocolExamples

  // ---- One entry carried through ------------------------------------------

  /** The entry just inserted over `w`, sent and with its row written, at a status of its proposal. */
  function Entered(w: World, u: string, status: Status, pc: Pc): World {
    var n := w.last + 1;
    w.(proposals := w.proposals[n := Proposal(0, u, Open, status)], last := n,
       orders := w.orders[Om(n) := OrderRow(w.orderSeq + 1, n, u, "submitted")], orderSeq := w.orderSeq + 1,
       broker := w.broker[Om(n) := WORKING], kill := false, pc := pc)
  }

  /** Accepted by the broker, the row not yet written. */
  function Acknowledged(w: World, u: string, pc: Pc): World {
    WithEntry(w, u, pc).(broker := w.broker[Om(w.last + 1) := WORKING])
  }

  const SENT: seq<Event> := [Answer(Accepted(WORKING)), WriteRow, WriteStatus, Crash]

  lemma Acknowledge(w: World, u: string)
    requires Om(w.last + 1) !in w.broker
    ensures var n := w.last + 1;
            Step(WithEntry(w, u, Place(Om(n), [])), Answer(Accepted(WORKING)), LIVE_CONFIG)
            == Some(Acknowledged(w, u, Record(Om(n), [], "submitted", Submitted)))
  {}

  lemma WriteSentRow(w: World, u: string)
    requires Om(w.last + 1) !in w.orders
    ensures var n := w.last + 1;
            Step(Acknowledged(w, u, Record(Om(n), [], "submitted", Submitted)), WriteRow, LIVE_CONFIG)
            == Some(Entered(w, u, Pending, Mark(n, [], Submitted)))
  {
    var n := w.last + 1;
    assert RowWritten(Acknowledged(w, u, Record(Om(n), [], "submitted", Submitted)))
        == Entered(w, u, Pending, Mark(n, [], Submitted));
  }

  lemma WriteNewStatus(w: World, u: string, next: Status)
    ensures Step(Entered(w, u, Pending, Mark(w.last + 1, [], next)), WriteStatus, LIVE_CONFIG)
         == Some(Entered(w, u, next, Batch([])))
  {
    var v := Entered(w, u, Pending, Mark(w.last + 1, [], next));
    assert WithStatus(v.proposals, w.last + 1, next) == Entered(w, u, next, Idle).proposals;
  }

  lemma CrashAt(w: World, u: string, status: Status, pc: Pc)
    ensures Step(Entered(w, u, status, pc), Crash, LIVE_CONFIG) == Some(Entered(w, u, status, Idle))
  {}

  lemma SentSteps(w: World, u: string)
    requires Om(w.last + 1) !in w.broker && Om(w.last + 1) !in w.orders
    ensures Run(WithEntry(w, u, Place(Om(w.last + 1), [])), SENT, LIVE_CONFIG) == Some(Entered(w, u, Submitted, Idle))
  {
    hide Run, Step, WithEntry, Acknowledged, Entered;
    var n := w.last + 1;
    Acknowledge(w, u);
    WriteSentRow(w, u);
    WriteNewStatus(w, u, Submitted);
    CrashAt(w, u, Submitted, Batch([]));
    FourSteps(WithEntry(w, u, Place(Om(n), [])), Acknowledged(w, u, Record(Om(n), [], "submitted", Submitted)),
              Entered(w, u, Pending, Mark(n, [], Submitted)), Entered(w, u, Submitted, Batch([])),
              Entered(w, u, Submitted, Idle),
              Answer(Accepted(WORKING)), WriteRow, WriteStatus, Crash);
  }

  // ---- Fifty working entries, each on its own underlying ------------------

  /** A different symbol for every number, and never SPY. */
  function Symbol(n: nat): string { seq(n, i => 'A') }

  function Ids(k: nat): set<ClientId> { set i | 1 <= i <= k :: Om(i) }

  function Working(k: nat): World {
    if k == 0 then Init() else Entered(Working(k - 1), Symbol(k), Submitted, Idle)
  }

  predicate Numbered(id: ClientId, k: nat) { id.Om? && 1 <= id.proposal <= k }

  lemma InIds(id: ClientId, k: nat)
    ensures id in Ids(k) <==> Numbered(id, k)
  {}

  ghost predicate ProposalsHold(ps: Proposals, k: nat) {
    && (forall i :: i in ps <==> 1 <= i <= k)
    && (forall i :: i in ps ==> ps[i] == Proposal(0, Symbol(i), Open, Submitted))
  }

  ghost predicate OrdersHold(orders: Orders, k: nat) {
    && (forall id :: id in orders <==> Numbered(id, k))
    && (forall id :: id in orders ==> orders[id] == OrderRow(id.proposal, id.proposal, Symbol(id.proposal), "submitted"))
  }

  ghost predicate BookHolds(book: map<ClientId, Report>, k: nat) { forall id :: id in book <==> Numbered(id, k) }

  /** What `Working(k)` holds. */
  ghost predicate Holds(w: World, k: nat) {
    && w.pc == Idle && !w.kill && w.last == k && w.orderSeq == k
    && ProposalsHold(w.proposals, k) && OrdersHold(w.orders, k) && BookHolds(w.broker, k)
  }

  lemma OneMoreProposal(ps: Proposals, k: nat)
    requires ProposalsHold(ps, k)
    ensures ProposalsHold(ps[k + 1 := Proposal(0, Symbol(k + 1), Open, Submitted)], k + 1)
  {
    hide Symbol;
  }

  lemma OneMoreOrder(orders: Orders, k: nat)
    requires OrdersHold(orders, k)
    ensures OrdersHold(orders[Om(k + 1) := OrderRow(k + 1, k + 1, Symbol(k + 1), "submitted")], k + 1)
  {
    hide Symbol;
  }

  lemma OneMoreInBook(book: map<ClientId, Report>, k: nat)
    requires BookHolds(book, k)
    ensures BookHolds(book[Om(k + 1) := WORKING], k + 1)
  {}

  lemma EnteredHolds(w: World, k: nat)
    requires Holds(w, k)
    ensures Holds(Entered(w, Symbol(k + 1), Submitted, Idle), k + 1)
  {
    hide ProposalsHold, OrdersHold, BookHolds, Symbol;
    OneMoreProposal(w.proposals, k);
    OneMoreOrder(w.orders, k);
    OneMoreInBook(w.broker, k);
  }

  lemma NoneHold()
    ensures Holds(Working(0), 0)
  {}

  lemma WorkingNext(k: nat)
    ensures Working(k + 1) == Entered(Working(k), Symbol(k + 1), Submitted, Idle)
  {
    hide Entered, Symbol;
  }

  lemma {:induction false} WorkingHolds(k: nat)
    ensures Holds(Working(k), k)
  {
    hide Holds, Entered, Working, Symbol;
    if k == 0 {
      NoneHold();
    } else {
      WorkingHolds(k - 1);
      WorkingNext(k - 1);
      EnteredHolds(Working(k - 1), k - 1);
    }
  }

  lemma {:induction false} IdsCount(k: nat)
    ensures |Ids(k)| == k
  {
    if k > 0 {
      IdsCount(k - 1);
      assert Ids(k) == Ids(k - 1) + {Om(k)};
    }
  }

  lemma AllInFlight(orders: Orders, k: nat)
    requires OrdersHold(orders, k)
    ensures InFlight(orders) == Ids(k)
  {
    SentStatusesAreOpen();
    hide Settled, Symbol;
    forall id ensures id in InFlight(orders) <==> id in Ids(k) { InIds(id, k); }
  }

  lemma SymbolsDiffer(i: nat, u: string)
    requires u == "SPY" || exists n: nat :: n > i && u == Symbol(n)
    ensures Symbol(i) != u
  {
    if u == "SPY" && i == 3 { assert Symbol(3)[0] == 'A'; } else { assert |Symbol(i)| == i; }
  }

  /** While at most fifty are working the gate sees them all. */
  lemma AllAreSeen(orders: Orders, k: nat)
    requires OrdersHold(orders, k) && k <= POLL_LIMIT
    ensures ReadsInFlight(Ids(k), orders)
  {
    IdsCount(k);
    AllInFlight(orders, k);
    hide InFlight, Symbol, OrdersHold, Ids;
  }

  lemma HoldsIsQuiet(w: World, k: nat, u: string)
    requires Holds(w, k) && k <= POLL_LIMIT && (u == "SPY" || u == Symbol(k + 1))
    ensures Quiet(w, u, Ids(k))
  {
    AllAreSeen(w.orders, k);
    forall i: nat | i <= k ensures Symbol(i) != u { SymbolsDiffer(i, u); }
    hide Symbol, BookHolds, ReadsInFlight, InFlight;
    forall id | id in Ids(k) ensures id in w.orders && w.orders[id].underlying != u { InIds(id, k); }
    assert !Numbered(Om(k + 1), k);
    hide Ids;
  }

  lemma {:induction false} WorkingIsQuiet(k: nat, u: string)
    requires k <= POLL_LIMIT && (u == "SPY" || u == Symbol(k + 1))
    ensures Quiet(Working(k), u, Ids(k))
  {
    hide Holds, Quiet, Working, Symbol, Ids;
    WorkingHolds(k);
    HoldsIsQuiet(Working(k), k, u);
  }

  function FillOne(k: nat): seq<Event>
    requires k > 0
  {
    SendOne(Symbol(k), Ids(k - 1)) + SENT
  }

  function Fill(k: nat): seq<Event> { if k == 0 then [] else Fill(k - 1) + FillOne(k) }

  lemma {:induction false} FillRuns(k: nat)
    requires k <= POLL_LIMIT
    ensures Run(Init(), Fill(k), LIVE_CONFIG) == Some(Working(k))
  {
    hide Step, Run, SendOne, WithEntry, Entered, Ids, Symbol, Quiet;
    if k == 0 {
      RunNothing(Init());
    } else {
      var w, u := Working(k - 1), Symbol(k);
      FillRuns(k - 1);
      WorkingIsQuiet(k - 1, u);
      NextIsNew(k - 1);
      ReachesBroker(w, u, Ids(k - 1));
      SentSteps(w, u);
      RunAppend(w, SendOne(u, Ids(k - 1)), SENT, LIVE_CONFIG);
      RunAppend(Init(), Fill(k - 1), FillOne(k), LIVE_CONFIG);
    }
  }

  lemma {:induction false} RunNothing(w: World)
    ensures Run(w, [], LIVE_CONFIG) == Some(w)
  {}

  lemma {:induction false} NextIsNew(k: nat)
    ensures Working(k).last == k && Om(k + 1) !in Working(k).broker && Om(k + 1) !in Working(k).orders
  {
    hide Working, Symbol, ProposalsHold;
    WorkingHolds(k);
    assert !Numbered(Om(k + 1), k);
  }

  // ---- The fifty-first: sent, and rejected on its retry --------------------

  const CUT: seq<Event> := [Answer(Accepted(WORKING)), WriteRow, Crash, StartTick(false)]

  const RETRY: seq<Event> := [TakeNext(Priced), Verdict(false, {}), WriteStatus, Crash]

  lemma RestartsOnIt(w: World, u: string)
    requires forall pid :: pid in w.proposals ==> pid <= w.last && w.proposals[pid].status != Pending
    ensures Step(Entered(w, u, Pending, Idle), StartTick(false), LIVE_CONFIG)
         == Some(Entered(w, u, Pending, Batch([w.last + 1])))
  {
    hide PendingBatch;
    OnlyPending(Entered(w, u, Pending, Idle).proposals, w.last + 1);
  }

  lemma CutSteps(w: World, u: string)
    requires Om(w.last + 1) !in w.broker && Om(w.last + 1) !in w.orders
    requires forall pid :: pid in w.proposals ==> pid <= w.last && w.proposals[pid].status != Pending
    ensures Run(WithEntry(w, u, Place(Om(w.last + 1), [])), CUT, LIVE_CONFIG)
         == Some(Entered(w, u, Pending, Batch([w.last + 1])))
  {
    hide Run, Step, WithEntry, Acknowledged, Entered;
    var n := w.last + 1;
    Acknowledge(w, u);
    WriteSentRow(w, u);
    CrashAt(w, u, Pending, Mark(n, [], Submitted));
    RestartsOnIt(w, u);
    FourSteps(WithEntry(w, u, Place(Om(n), [])), Acknowledged(w, u, Record(Om(n), [], "submitted", Submitted)),
              Entered(w, u, Pending, Mark(n, [], Submitted)), Entered(w, u, Pending, Idle),
              Entered(w, u, Pending, Batch([n])),
              Answer(Accepted(WORKING)), WriteRow, Crash, StartTick(false));
  }

  lemma RetakeIt(w: World, u: string)
    requires forall pid :: pid in w.proposals ==> pid <= w.last && w.proposals[pid].underlying != u
    ensures Step(Entered(w, u, Pending, Batch([w.last + 1])), TakeNext(Priced), LIVE_CONFIG)
         == Some(Entered(w, u, Pending, Gate(w.last + 1, [])))
  {
    var v := Entered(w, u, Pending, Batch([w.last + 1]));
    assert u !in ActiveUnderlyings(v.proposals, Some(w.last + 1));
    hide ActiveUnderlyings;
    assert [w.last + 1][1..] == [];
  }

  lemma RetrySteps(w: World, u: string)
    requires forall pid :: pid in w.proposals ==> pid <= w.last && w.proposals[pid].underlying != u
    ensures Run(Entered(w, u, Pending, Batch([w.last + 1])), RETRY, LIVE_CONFIG) == Some(Entered(w, u, Rejected, Idle))
  {
    hide Run;
    var n := w.last + 1;
    RetakeIt(w, u);
    assert Step(Entered(w, u, Pending, Gate(n, [])), Verdict(false, {}), LIVE_CONFIG)
        == Some(Entered(w, u, Pending, Mark(n, [], Rejected)));
    hide Step, Entered;
    WriteNewStatus(w, u, Rejected);
    CrashAt(w, u, Rejected, Batch([]));
    FourSteps(Entered(w, u, Pending, Batch([n])), Entered(w, u, Pending, Gate(n, [])),
              Entered(w, u, Pending, Mark(n, [], Rejected)), Entered(w, u, Rejected, Batch([])),
              Entered(w, u, Rejected, Idle),
              TakeNext(Priced), Verdict(false, {}), WriteStatus, Crash);
  }

  // ---- The fifty-second: on the same underlying ---------------------------

  /** `k` working entries and one more whose proposal is rejected while its order works on. */
  function Crowded(k: nat): World { Entered(Working(k), "SPY", Rejected, Idle) }

  /** One more row over a full page: in flight, younger than the page, and not on it. */
  lemma PageStaysFull(orders: Orders, k: nat)
    requires OrdersHold(orders, k) && k == POLL_LIMIT
    ensures ReadsInFlight(Ids(k), orders[Om(k + 1) := OrderRow(k + 1, k + 1, "SPY", "submitted")])
  {
    var more := orders[Om(k + 1) := OrderRow(k + 1, k + 1, "SPY", "submitted")];
    IdsCount(k);
    AllInFlight(orders, k);
    SentStatusesAreOpen();
    hide Settled, Symbol;
    forall id ensures id in InFlight(more) <==> id in Ids(k) || id == Om(k + 1) {
      InIds(id, k);
      assert id in InFlight(orders) <==> id in Ids(k);
    }
    hide InFlight;
    forall id | id in Ids(k) ensures id in orders && more[id].seqNo <= k { InIds(id, k); }
  }

  lemma CrowdedBook(w: World, k: nat)
    requires Holds(w, k)
    ensures var v := Entered(w, "SPY", Rejected, Idle);
            && Om(k + 2) !in v.broker && v.last == k + 1
            && Om(k + 1) in v.broker && v.broker[Om(k + 1)] == WORKING
            && k + 1 in v.proposals && v.proposals[k + 1].underlying == "SPY"
  {
    hide Symbol, ProposalsHold, OrdersHold;
    assert !Numbered(Om(k + 2), k);
  }

  lemma NothingOnSpy(w: World, k: nat)
    requires Holds(w, k)
    ensures forall pid :: pid in w.proposals ==>
              pid <= w.last && w.proposals[pid].status != Pending && w.proposals[pid].underlying != "SPY"
  {
    forall i: nat ensures Symbol(i) != "SPY" { SymbolsDiffer(i, "SPY"); }
    hide Symbol, OrdersHold, BookHolds;
  }

  lemma SpyIsOffThePage(orders: Orders, k: nat)
    requires OrdersHold(orders, k)
    ensures Om(k + 2) !in orders && forall id :: id in Ids(k) ==> id in orders && id != Om(k + 1) && orders[id].underlying != "SPY"
  {
    assert !Numbered(Om(k + 2), k);
    forall id | id in Ids(k) ensures id in orders && id != Om(k + 1) && orders[id].underlying != "SPY" {
      InIds(id, k);
      SymbolsDiffer(id.proposal, "SPY");
    }
  }

  /** The fifty oldest orders fill the page, and the one on SPY is not among them. */
  lemma CrowdedLooksQuiet(w: World, k: nat)
    requires Holds(w, k) && k == POLL_LIMIT
    ensures Quiet(Entered(w, "SPY", Rejected, Idle), "SPY", Ids(k))
  {
    PageStaysFull(w.orders, k);
    SpyIsOffThePage(w.orders, k);
    NothingOnSpy(w, k);
    hide Symbol, ReadsInFlight, ProposalsHold, OrdersHold, BookHolds, Ids;
  }

  function ToFullPage(k: nat): seq<Event> { Fill(k) + SendOne("SPY", Ids(k)) + CUT + RETRY }

  lemma ReachesFullPage(k: nat)
    requires k == POLL_LIMIT
    ensures Run(Init(), ToFullPage(k), LIVE_CONFIG) == Some(Crowded(k))
  {
    hide Step, Run, SendOne, WithEntry, Ids, Symbol, Quiet, Entered, Fill, Working, Holds;
    var w := Working(k);
    FillRuns(k);
    WorkingIsQuiet(k, "SPY");
    NextIsNew(k);
    WorkingHolds(k);
    NothingOnSpy(w, k);
    ReachesBroker(w, "SPY", Ids(k));
    CutSteps(w, "SPY");
    RetrySteps(w, "SPY");
    RunAppend(Init(), Fill(k), SendOne("SPY", Ids(k)), LIVE_CONFIG);
    RunAppend(Init(), Fill(k) + SendOne("SPY", Ids(k)), CUT, LIVE_CONFIG);
    RunAppend(Init(), Fill(k) + SendOne("SPY", Ids(k)) + CUT, RETRY, LIVE_CONFIG);
  }

  /**
   * Nothing is lost and nothing lands unseen, yet the gate approves a second entry on SPY: the
   * first one's order is the fifty-first in flight, and the gate reads fifty.
   */
  lemma FullPageDoublesEntry(k: nat)
    requires k == POLL_LIMIT
    ensures var r := Run(Init(), ToFullPage(k) + SendOne("SPY", Ids(k)) + [Answer(Accepted(WORKING))], LIVE_CONFIG);
            && r.Some? && Live(r.value, Om(k + 1)) && Live(r.value, Om(k + 2))
            && k + 1 in r.value.proposals && k + 2 in r.value.proposals
            && r.value.proposals[k + 1].underlying == r.value.proposals[k + 2].underlying
  {
    hide Step, Run, SendOne, Ids, Quiet, Settled, ToFullPage, Entered, Working, Holds;
    var w, es := Crowded(k), ToFullPage(k);
    ReachesFullPage(k);
    WorkingHolds(k);
    CrowdedBook(Working(k), k);
    CrowdedLooksQuiet(Working(k), k);
    hide Crowded;
    ReachesBroker(w, "SPY", Ids(k));
    Acknowledge(w, "SPY");
    SentStatusesAreOpen();
    var sent := WithEntry(w, "SPY", Place(Om(w.last + 1), []));
    RunAppend(Init(), es, SendOne("SPY", Ids(k)), LIVE_CONFIG);
    RunAppend(Init(), es + SendOne("SPY", Ids(k)), [Answer(Accepted(WORKING))], LIVE_CONFIG);
    RunOne(sent, Answer(Accepted(WORKING)), LIVE_CONFIG);
  }
}
