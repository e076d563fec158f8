/** What holds over whole runs of the protocol, and the three events that part its books from the broker. */
module ProtocolRuns {
  import opened Models
  import opened Store
  import opened Protocol

  // ---- Safety over every run ----------------------------------------------

  lemma InitInv()
    ensures Inv(Init())
  {}

  lemma {:induction false} RunKeepsInv(w: World, es: seq<Event>, cfg: Config)
    requires Inv(w) && Run(w, es, cfg).Some?
    ensures Inv(Run(w, es, cfg).value)
    decreases |es|
  {
    hide Inv, Step;
    if es != [] {
      StepKeepsInv(w, es[0], cfg);
      RunKeepsInv(Step(w, es[0], cfg).value, es[1..], cfg);
    }
  }

  /** Running one list of events after another. */
  lemma {:induction false} RunAppend(w: World, a: seq<Event>, b: seq<Event>, cfg: Config)
    requires Run(w, a, cfg).Some?
    ensures Run(w, a + b, cfg) == Run(Run(w, a, cfg).value, b, cfg)
    decreases |a|
  {
    hide Step;
    if a == [] {
      assert a + b == b;
    } else {
      assert (a + b)[1..] == a[1..] + b;
      RunAppend(Step(w, a[0], cfg).value, a[1..], b, cfg);
    }
  }

  lemma {:induction false} RunOne(w: World, e: Event, cfg: Config)
    ensures Run(w, [e], cfg) == Step(w, e, cfg)
  {
    hide Step;
    assert [e][1..] == [];
  }

  /**
   * After any run from an empty store, with crashes between any two awaits and other agents
   * writing at will: no two entries on one underlying are approved or submitted, and every
   * submitted proposal has both its order row and a broker order under its own id.
   */
  lemma {:induction false} RunIsSafe(es: seq<Event>, cfg: Config)
    requires Run(Init(), es, cfg).Some?
    ensures var w := Run(Init(), es, cfg).value;
            && (forall p, q | p in w.proposals && q in w.proposals && p != q
                  && w.proposals[p].action == Open && w.proposals[q].action == Open
                  && w.proposals[p].status in {DryRunApproved, Submitted}
                  && w.proposals[q].status in {DryRunApproved, Submitted} ::
                    w.proposals[p].underlying != w.proposals[q].underlying)
            && (forall p | p in w.proposals && w.proposals[p].status == Submitted ::
                  Om(p) in w.orders && w.orders[Om(p)].proposalId == p && Om(p) in w.broker)
            && (forall p | p in w.proposals && w.proposals[p].status == CloseSubmitted ::
                  Omc(p) in w.orders && w.orders[Omc(p)].proposalId == p && Omc(p) in w.broker)
  {
    hide Run;
    InitInv();
    RunKeepsInv(Init(), es, cfg);
    var w := Run(Init(), es, cfg).value;
    assert forall p | p in w.proposals && w.proposals[p].action == Open
             && w.proposals[p].status in {DryRunApproved, Submitted} :: TakesSlot(w, p);
  }

  // ---- Statuses only descend ----------------------------------------------

  function Rank(s: Status): nat { if s == Pending then 2 else if s == BrokerRejected then 0 else 1 }

  /** Only three kinds of step write to the proposals table. */
  lemma ProposalsUntouched(w: World, e: Event, cfg: Config)
    requires Step(w, e, cfg).Some? && !e.Insert? && !e.WriteStatus? && !e.Unblock?
    ensures Step(w, e, cfg).value.proposals == w.proposals
  {
    hide Settled, TerminalUnfilled, Page, MayApprove, MayReport, PendingBatch, ActiveUnderlyings, WithOrder, WithOrderStatus;
  }

  lemma MarkedIsPending(w: World)
    requires Inv(w) && w.pc.Mark?
    ensures IsPending(w, w.pc.pid) && w.pc.next != Pending
  {
    hide Linked, OneSlot, Evidenced, Clear, QueueOk;
  }

  lemma IdsAreInRange(w: World, pid: nat)
    requires Inv(w) && pid in w.proposals
    ensures pid <= w.last
  {
    hide OneSlot, Evidenced, PcFits;
  }

  /** Proposals are never dropped or rewritten; a status moves off pending, or to broker_rejected. */
  lemma StepDescends(w: World, e: Event, cfg: Config, pid: nat)
    requires Inv(w) && Step(w, e, cfg).Some? && pid in w.proposals
    ensures var v := Step(w, e, cfg).value;
            && pid in v.proposals
            && v.proposals[pid] == w.proposals[pid].(status := v.proposals[pid].status)
            && (v.proposals[pid].status != w.proposals[pid].status ==>
                  && (w.proposals[pid].status == Pending || v.proposals[pid].status == BrokerRejected)
                  && Rank(v.proposals[pid].status) < Rank(w.proposals[pid].status))
  {
    hide Inv, Take, Answered, LookedUp, RowWritten, ReportWritten, PendingBatch, Page, MayApprove, MayReport;
    if e.WriteStatus? {
      MarkedIsPending(w);
    } else if e.Insert? {
      IdsAreInRange(w, pid);
    } else if !e.Unblock? {
      ProposalsUntouched(w, e, cfg);
    }
  }

  /** How often a run changes one proposal's status. */
  function Changes(w: World, es: seq<Event>, cfg: Config, pid: nat): nat
    decreases |es|
  {
    if es == [] then 0
    else
      var next := Step(w, es[0], cfg);
      if next.None? then 0
      else
        (if pid in w.proposals && pid in next.value.proposals
            && next.value.proposals[pid].status != w.proposals[pid].status then 1 else 0)
        + Changes(next.value, es[1..], cfg, pid)
  }

  /** A proposal's status changes at most twice over any run, and never after broker_rejected. */
  lemma {:induction false} ChangesAtMostTwice(w: World, es: seq<Event>, cfg: Config, pid: nat)
    requires Inv(w) && Run(w, es, cfg).Some? && pid in w.proposals
    ensures pid in Run(w, es, cfg).value.proposals
    ensures Changes(w, es, cfg, pid) + Rank(Run(w, es, cfg).value.proposals[pid].status)
         <= Rank(w.proposals[pid].status) <= 2
    decreases |es|
  {
    hide Inv, Step;
    if es != [] {
      var v := Step(w, es[0], cfg).value;
      StepKeepsInv(w, es[0], cfg);
      StepDescends(w, es[0], cfg, pid);
      ChangesAtMostTwice(v, es[1..], cfg, pid);
    }
  }

  // ---- The books and the broker agree --------------------------------------

  /** The broker still works the order. */
  ghost predicate Live(w: World, id: ClientId) { id in w.broker && !Settled(w.broker[id].status) }

  /** Every order the broker knows has its row, or is having it written. */
  ghost predicate Tidy(w: World) {
    forall id :: id in w.broker ==> id in w.orders || (w.pc.Record? && w.pc.id == id)
  }

  /** No live entry is written down, or about to be, as finished. */
  ghost predicate Synced(w: World) {
    forall pid :: Live(w, Om(pid)) ==>
      && (Om(pid) in w.orders ==> !Settled(w.orders[Om(pid)].status))
      && (w.pc.Record? && w.pc.id == Om(pid) ==> !Settled(w.pc.row))
      && (w.pc.Write? && w.pc.id == Om(pid) ==> !Settled(w.pc.report.status))
  }

  /** No entry row in flight shares the underlying. */
  ghost predicate Alone(w: World, pid: nat) {
    pid in w.proposals
    && forall q :: Om(q) in InFlight(w.orders) && w.orders[Om(q)].underlying == w.proposals[pid].underlying ==> q == pid
  }

  /** The entry being sent: approved, and its row not yet written. */
  function EntryInHand(pc: Pc): Option<nat> {
    match pc
    case Place(id, _) => if id.Om? then Some(id.proposal) else None
    case Lookup(pid, _) => Some(pid)
    case Record(id, _, _, _) => if id.Om? then Some(id.proposal) else None
    case _ => None
  }

  /** At most one entry row in flight per underlying, counting the one being sent. */
  ghost predicate Single(w: World) {
    && (forall p, q | Om(p) in InFlight(w.orders) && Om(q) in InFlight(w.orders)
          && w.orders[Om(p)].underlying == w.orders[Om(q)].underlying :: p == q)
    && (EntryInHand(w.pc).Some? ==> Alone(w, EntryInHand(w.pc).value))
  }

  /** The agent dies after the broker took an order and before its row is written. */
  ghost predicate LosesOrder(w: World, e: Event) {
    e.Crash? && w.pc.Record? && w.pc.id in w.broker && w.pc.id !in w.orders
  }

  /** A submission reported as failed that reached the broker all the same and is still worked there. */
  predicate LandsLive(w: World, e: Event) {
    && e.Answer? && e.reply.Lost? && e.reply.landed.Some? && !Settled(e.reply.landed.value.status)
    && w.pc.Place? && w.pc.id.Om?
  }

  /** An entry sent on while another entry row in flight is on its underlying. */
  ghost predicate ApprovesCrowded(w: World, e: Event, cfg: Config) {
    e.Verdict? && e.approved && !cfg.dryRun && w.pc.Gate? && !Alone(w, w.pc.pid)
  }

  lemma SentStatusesAreOpen()
    ensures !Settled("submitted") && !Settled("new") && Settled("failed")
  {
    assert Lower("new") == "new";
    assert Lower("failed") == "failed";
    assert Lower("submitted") == "submitted";
    assert "submitted"[0] == 's' && "cancelled"[0] == 'c';
  }

  lemma AnswerKeepsTidy(w: World, reply: Reply)
    requires Tidy(w) && w.pc.Place? && Answered(w, reply).Some?
    ensures Tidy(Answered(w, reply).value)
  {}

  lemma RowKeepsTidy(w: World)
    requires Tidy(w) && w.pc.Record? && w.pc.id.proposal in w.proposals
    ensures Tidy(RowWritten(w))
  {}

  /** The other steps forget no row and learn of no order; only a crash can drop a row in hand. */
  lemma OthersKeepTidy(w: World, e: Event, cfg: Config)
    requires Tidy(w) && Step(w, e, cfg).Some? && !e.Answer? && !e.WriteRow?
    ensures Tidy(Step(w, e, cfg).value) <==> !LosesOrder(w, e)
  {
    hide ActiveUnderlyings, PendingBatch, InFlight, Settled, TerminalUnfilled, MayApprove, Page, WithStatus;
  }

  /** From tidy books a step leads to tidy books exactly when it is not a crash that loses an order. */
  lemma TidyUnlessOrderLost(w: World, e: Event, cfg: Config)
    requires Inv(w) && Tidy(w) && Step(w, e, cfg).Some?
    ensures Tidy(Step(w, e, cfg).value) <==> !LosesOrder(w, e)
  {
    hide Inv, Tidy, Answered, RowWritten, Take;
    if e.Answer? {
      AnswerKeepsTidy(w, e.reply);
    } else if e.WriteRow? {
      RowKeepsTidy(w);
    } else {
      OthersKeepTidy(w, e, cfg);
    }
  }

  lemma AnswerKeepsSynced(w: World, reply: Reply)
    requires Inv(w) && Tidy(w) && Synced(w) && w.pc.Place? && Answered(w, reply).Some?
    requires !LandsLive(w, Answer(reply))
    ensures Synced(Answered(w, reply).value)
  {
    hide Linked, OneSlot, Evidenced, Clear, QueueOk, Settled;
    SentStatusesAreOpen();
  }

  lemma LandingBreaksSync(w: World, reply: Reply)
    requires w.pc.Place? && Answered(w, reply).Some? && LandsLive(w, Answer(reply))
    ensures !Synced(Answered(w, reply).value)
  {
    hide Settled;
    SentStatusesAreOpen();
    assert Live(Answered(w, reply).value, w.pc.id);
  }

  lemma RowKeepsSynced(w: World)
    requires Synced(w) && w.pc.Record? && w.pc.id.proposal in w.proposals
    ensures Synced(RowWritten(w))
  {
    hide Settled;
  }

  lemma LookUpKeepsSynced(w: World)
    requires Synced(w) && w.pc.Lookup?
    ensures Synced(LookedUp(w))
  {
    hide Settled, TerminalUnfilled;
  }

  lemma ReportKeepsSynced(w: World)
    requires Synced(w) && w.pc.Write? && w.pc.id in w.orders
    ensures Synced(ReportWritten(w))
  {
    hide Settled, TerminalUnfilled;
  }

  /** Events that write no row and put no new row or report in hand. */
  lemma OthersKeepSynced(w: World, e: Event, cfg: Config)
    requires Inv(w) && Synced(w) && Tidy(w) && Step(w, e, cfg).Some?
    requires !e.Answer? && !e.LookUp? && !e.WriteRow? && !e.WriteReport?
    ensures Synced(Step(w, e, cfg).value)
  {
    hide Linked, OneSlot, Evidenced, PcFits, ActiveUnderlyings, PendingBatch, Settled, MayApprove, Page, WithStatus;
  }

  /** From synced books a step leads to synced books exactly when no submission reported as failed landed alive. */
  lemma SyncedUnlessLandedLive(w: World, e: Event, cfg: Config)
    requires Inv(w) && Tidy(w) && Synced(w) && Step(w, e, cfg).Some?
    ensures Synced(Step(w, e, cfg).value) <==> !LandsLive(w, e)
  {
    hide Inv, Tidy, Synced, Answered, LookedUp, RowWritten, ReportWritten, Take;
    if e.Answer? {
      if LandsLive(w, e) { LandingBreaksSync(w, e.reply); } else { AnswerKeepsSynced(w, e.reply); }
    } else if e.LookUp? {
      LookUpKeepsSynced(w);
    } else if e.WriteRow? {
      RowKeepsSynced(w);
    } else if e.WriteReport? {
      ReportKeepsSynced(w);
    } else {
      OthersKeepSynced(w, e, cfg);
    }
  }

  lemma PageSeesAll(seen: set<ClientId>, orders: Orders)
    requires ReadsInFlight(seen, orders) && |InFlight(orders)| <= POLL_LIMIT
    ensures seen == InFlight(orders)
  {
    hide InFlight;
    if |seen| == POLL_LIMIT {
      assert InFlight(orders) == seen + (InFlight(orders) - seen);
      assert |InFlight(orders) - seen| == 0;
    }
  }

  /** Approving at one position per symbol with every working order in view leaves the new entry alone. */
  lemma ApprovedIsAlone(w: World, pid: nat, seen: set<ClientId>, cfg: Config)
    requires MayApprove(w, pid, seen, cfg) && |InFlight(w.orders)| <= POLL_LIMIT && cfg.perUnderlying == 1
    ensures Alone(w, pid)
  {
    PageSeesAll(seen, w.orders);
    assert forall id :: id in InFlight(w.orders) ==> w.orders[id].underlying in Underlyings(seen, w.orders);
  }

  /** So there a crowded approval needs more orders in flight than one page shows. */
  lemma CrowdedOnlyPastAPage(w: World, e: Event, cfg: Config)
    requires Step(w, e, cfg).Some? && ApprovesCrowded(w, e, cfg) && cfg.perUnderlying == 1
    ensures |InFlight(w.orders)| > POLL_LIMIT
  {
    assert MayApprove(w, w.pc.pid, e.seen, cfg);
    hide Alone, MayApprove, InFlight;
    if |InFlight(w.orders)| <= POLL_LIMIT { ApprovedIsAlone(w, w.pc.pid, e.seen, cfg); }
  }

  lemma RowKeepsSingle(w: World)
    requires Inv(w) && Single(w) && w.pc.Record? && w.pc.id.proposal in w.proposals
    ensures Single(RowWritten(w))
  {
    hide OneSlot, Evidenced, Clear, QueueOk, Settled;
    var v := RowWritten(w);
    assert forall id :: id in InFlight(v.orders) ==> id == w.pc.id || id in InFlight(w.orders);
  }

  lemma ReportKeepsSingle(w: World)
    requires Inv(w) && Single(w) && w.pc.Write? && w.pc.id in w.orders
    ensures Single(ReportWritten(w))
  {
    hide OneSlot, Evidenced, Clear, QueueOk, Settled, TerminalUnfilled;
    var v := ReportWritten(w);
    assert forall id :: id in InFlight(v.orders) ==> id in InFlight(w.orders);
    assert forall id :: id in v.orders ==> id in w.orders && v.orders[id].underlying == w.orders[id].underlying;
  }

  /** One entry row per underlying stays so through a step exactly when the step does not send on a crowded entry. */
  lemma SingleUnlessCrowded(w: World, e: Event, cfg: Config)
    requires Inv(w) && Single(w) && Step(w, e, cfg).Some?
    ensures Single(Step(w, e, cfg).value) <==> !ApprovesCrowded(w, e, cfg)
  {
    if e.WriteRow? {
      RowKeepsSingle(w);
    } else if e.WriteReport? {
      ReportKeepsSingle(w);
    } else if e.Verdict? && e.approved {
      ApprovalInHand(w, e, cfg);
    } else {
      var v := Step(w, e, cfg).value;
      forall pid | pid in w.proposals
        ensures pid in v.proposals && v.proposals[pid].underlying == w.proposals[pid].underlying
      {
        StepDescends(w, e, cfg, pid);
      }
      NoNewEntry(w, e, cfg);
      hide Inv, Alone;
      SinglePc(w, v);
    }
  }

  lemma ApprovalInHand(w: World, e: Event, cfg: Config)
    requires Single(w) && Step(w, e, cfg).Some? && e.Verdict? && e.approved
    ensures Single(Step(w, e, cfg).value) <==> !ApprovesCrowded(w, e, cfg)
  {
    hide InFlight, MayApprove;
    var v := Step(w, e, cfg).value;
    assert v.orders == w.orders && v.proposals == w.proposals;
    assert Alone(v, w.pc.pid) == Alone(w, w.pc.pid);
  }

  /** Short of an approval, an entry in hand was in hand before. */
  lemma NoNewEntry(w: World, e: Event, cfg: Config)
    requires Step(w, e, cfg).Some? && !(e.Verdict? && e.approved) && !e.WriteRow? && !e.WriteReport?
    ensures Step(w, e, cfg).value.orders == w.orders
    ensures EntryInHand(Step(w, e, cfg).value.pc).Some? ==>
              EntryInHand(Step(w, e, cfg).value.pc) == EntryInHand(w.pc)
  {
    if e.TakeNext? {
      TakeSendsNoEntry(w, e.close, cfg);
    } else if e.Answer? {
      AnswerKeepsEntry(w, e.reply);
    }
    hide Take, Answered, MayApprove;
  }

  lemma TakeSendsNoEntry(w: World, close: CloseOutcome, cfg: Config)
    requires w.pc.Batch? && w.pc.queue != [] && w.pc.queue[0] in w.proposals
    ensures Take(w, close, cfg).orders == w.orders && EntryInHand(Take(w, close, cfg).pc).None?
  {
    hide ActiveUnderlyings;
  }

  lemma AnswerKeepsEntry(w: World, reply: Reply)
    requires w.pc.Place? && Answered(w, reply).Some?
    ensures Answered(w, reply).value.orders == w.orders
    ensures EntryInHand(Answered(w, reply).value.pc) == EntryInHand(w.pc)
  {}

  /** With the rows untouched, only a new entry in hand needs looking at. */
  lemma SinglePc(w: World, v: World)
    requires Single(w) && v.orders == w.orders
    requires forall pid :: pid in w.proposals ==> pid in v.proposals && v.proposals[pid].underlying == w.proposals[pid].underlying
    requires EntryInHand(v.pc).Some? ==> Alone(w, EntryInHand(v.pc).value)
    ensures Single(v)
  {}

  // ---- No double entry ----------------------------------------------------

  ghost predicate Books(w: World) { Inv(w) && Tidy(w) && Synced(w) && Single(w) }

  /** None of the three events the books cannot absorb. */
  ghost predicate Clean(w: World, e: Event, cfg: Config) {
    !LosesOrder(w, e) && !LandsLive(w, e) && !ApprovesCrowded(w, e, cfg)
  }

  /** A step keeps the books exactly when it is clean. */
  lemma BooksKeptIff(w: World, e: Event, cfg: Config)
    requires Books(w) && Step(w, e, cfg).Some?
    ensures Books(Step(w, e, cfg).value) <==> Clean(w, e, cfg)
  {
    hide Inv, Tidy, Synced, Single, Step, LosesOrder, LandsLive, ApprovesCrowded;
    StepKeepsInv(w, e, cfg);
    TidyUnlessOrderLost(w, e, cfg);
    SyncedUnlessLandedLive(w, e, cfg);
    SingleUnlessCrowded(w, e, cfg);
  }

  ghost predicate CleanRun(w: World, es: seq<Event>, cfg: Config)
    decreases |es|
  {
    es == [] || (Clean(w, es[0], cfg) && (Step(w, es[0], cfg).Some? ==> CleanRun(Step(w, es[0], cfg).value, es[1..], cfg)))
  }

  /** The books hold in every world the run passes through. */
  ghost predicate BooksThroughout(w: World, es: seq<Event>, cfg: Config)
    decreases |es|
  {
    Books(w) && (es == [] || Step(w, es[0], cfg).None? || BooksThroughout(Step(w, es[0], cfg).value, es[1..], cfg))
  }

  /** A run keeps the books all the way exactly when every event of it is clean. */
  lemma {:induction false} BooksThroughoutIff(w: World, es: seq<Event>, cfg: Config)
    requires Books(w) && Run(w, es, cfg).Some?
    ensures BooksThroughout(w, es, cfg) <==> CleanRun(w, es, cfg)
    ensures CleanRun(w, es, cfg) ==> Books(Run(w, es, cfg).value)
    decreases |es|
  {
    hide Books, Step, Clean;
    if es != [] {
      var v := Step(w, es[0], cfg).value;
      BooksKeptIff(w, es[0], cfg);
      if Books(v) { BooksThroughoutIff(v, es[1..], cfg); }
    }
  }

  /**
   * A run in which no crash falls between the broker's acceptance and the order row, no submission
   * reported as failed is alive at the broker, and no entry is sent on beside another one in flight
   * on its underlying, never has two live entry orders on one underlying at the broker.
   */
  lemma {:induction false} NoDoubleEntry(es: seq<Event>, cfg: Config, p: nat, q: nat)
    requires Run(Init(), es, cfg).Some? && CleanRun(Init(), es, cfg)
    requires Live(Run(Init(), es, cfg).value, Om(p)) && Live(Run(Init(), es, cfg).value, Om(q))
    ensures var w := Run(Init(), es, cfg).value;
            && p in w.proposals && q in w.proposals
            && (w.proposals[p].underlying == w.proposals[q].underlying ==> p == q)
  {
    hide Run, CleanRun, Inv, Tidy, Synced, Single, Live;
    InitBooks();
    BooksThroughoutIff(Init(), es, cfg);
    var w := Run(Init(), es, cfg).value;
    LiveEntriesAreAlone(w, p, q);
  }

  lemma InitBooks()
    ensures Books(Init())
  {}

  lemma LiveEntriesAreAlone(w: World, p: nat, q: nat)
    requires Books(w) && Live(w, Om(p)) && Live(w, Om(q))
    ensures p in w.proposals && q in w.proposals
    ensures w.proposals[p].underlying == w.proposals[q].underlying ==> p == q
  {
    hide OneSlot, Evidenced, PcFits, Settled;
    assert RightKind(w, Om(p)) && RightKind(w, Om(q));
    assert Om(p) in w.orders ==> Om(p) in InFlight(w.orders);
    assert Om(q) in w.orders ==> Om(q) in InFlight(w.orders);
  }
}
