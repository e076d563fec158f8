/**
 * The two switches: in dry run nothing reaches the broker or the order table, and under the kill
 * switch no entry does.
 */
module Switches {
  import opened Models
  import opened Store
  import opened Protocol
  import opened ProtocolRuns

  // ---- Dry run ------------------------------------------------------------

  /** Statuses only an order can bring about. */
  predicate OfAnOrder(s: Status) {
    s == Submitted || s == CloseSubmitted || s == Failed || s == Ambiguous || s == BrokerRejected
  }

  /** The agent stands short of the broker, with no order's outcome to write down. */
  predicate Ashore(pc: Pc) {
    && !pc.Place? && !pc.Lookup? && !pc.Record?
    && (pc.Mark? ==> !OfAnOrder(pc.next))
  }

  lemma TakeInDryRun(w: World, close: CloseOutcome, cfg: Config)
    requires cfg.dryRun && w.pc.Batch? && w.pc.queue != [] && w.pc.queue[0] in w.proposals
    ensures Ashore(Take(w, close, cfg).pc)
    ensures Take(w, close, cfg).broker == w.broker && Take(w, close, cfg).orders == w.orders
    ensures !Take(w, close, cfg).pc.Polling? && !Take(w, close, cfg).pc.Write? && !Take(w, close, cfg).pc.Release?
  {
    hide ActiveUnderlyings;
  }

  /** In dry run a step of the agent leaves it ashore, and no step of anyone's adds an order row. */
  lemma StepInDryRun(w: World, e: Event, cfg: Config)
    requires cfg.dryRun && Ashore(w.pc) && Step(w, e, cfg).Some?
    ensures var v := Step(w, e, cfg).value;
            && Ashore(v.pc) && v.orders.Keys == w.orders.Keys && v.broker.Keys == w.broker.Keys
            && (!e.BrokerMove? ==> v.broker == w.broker)
  {
    hide ActiveUnderlyings, PendingBatch, Settled, TerminalUnfilled, Page, MayApprove, MayReport;
    if e.TakeNext? { TakeInDryRun(w, e.close, cfg); }
    hide Take;
  }

  /** Nothing was ever sent or recorded, and nothing is left to poll. */
  ghost predicate Untraded(w: World) {
    && w.broker == map[] && w.orders == map[] && Ashore(w.pc)
    && !w.pc.Write? && !w.pc.Release? && (w.pc.Polling? ==> w.pc.ids == [])
    && forall pid :: pid in w.proposals ==> !OfAnOrder(w.proposals[pid].status)
  }

  lemma SomeRow(rows: seq<ClientId>)
    ensures rows == [] || exists id :: id in rows
  {
    if rows != [] { assert rows[0] in rows; }
  }

  lemma NothingToPoll(rows: seq<ClientId>, orders: Orders)
    requires orders == map[] && Page(rows, orders)
    ensures rows == []
  {
    hide OldestFirst, ReadsInFlight;
    SomeRow(rows);
  }

  lemma StepStaysUntraded(w: World, e: Event, cfg: Config)
    requires cfg.dryRun && Untraded(w) && Step(w, e, cfg).Some?
    ensures Untraded(Step(w, e, cfg).value)
  {
    StepInDryRun(w, e, cfg);
    if e.TakeNext? { TakeInDryRun(w, e.close, cfg); }
    if e.StartReconcile? { NothingToPoll(e.rows, w.orders); }
    hide PendingBatch, Settled, TerminalUnfilled, Page, MayApprove, MayReport;
    ProposalsInDryRun(w, e, cfg);
  }

  lemma ProposalsInDryRun(w: World, e: Event, cfg: Config)
    requires cfg.dryRun && Untraded(w) && Step(w, e, cfg).Some?
    ensures var v := Step(w, e, cfg).value;
            forall pid :: pid in v.proposals ==> !OfAnOrder(v.proposals[pid].status)
  {
    hide PendingBatch, Settled, TerminalUnfilled, Page, MayApprove, MayReport, ActiveUnderlyings;
    if !e.Insert? && !e.WriteStatus? && !e.Unblock? { ProposalsUntouched(w, e, cfg); }
  }

  /** In dry run no run, however long, sends an order, writes an order row or brings about a status of one. */
  lemma {:induction false} DryRunNeverTrades(es: seq<Event>, cfg: Config)
    requires cfg.dryRun && Run(Init(), es, cfg).Some?
    ensures var w := Run(Init(), es, cfg).value;
            && w.broker == map[] && w.orders == map[]
            && forall pid :: pid in w.proposals ==>
                 w.proposals[pid].status !in {Submitted, CloseSubmitted, Failed, Ambiguous, BrokerRejected}
  {
    StaysUntraded(Init(), es, cfg);
  }

  lemma {:induction false} StaysUntraded(w: World, es: seq<Event>, cfg: Config)
    requires cfg.dryRun && Untraded(w) && Run(w, es, cfg).Some?
    ensures Untraded(Run(w, es, cfg).value)
    decreases |es|
  {
    hide Untraded, Step;
    if es != [] {
      StepStaysUntraded(w, es[0], cfg);
      StaysUntraded(Step(w, es[0], cfg).value, es[1..], cfg);
    }
  }

  // ---- Kill switch --------------------------------------------------------

  /** The entry being looked at, sent or written down. */
  predicate HandlesEntry(w: World, pid: nat) { pid in w.proposals && w.proposals[pid].action == Open }

  /** Whatever the agent holds, it is not an entry on its way. */
  predicate NoEntryInHand(w: World) {
    match w.pc
    case Gate(_, _) => false
    case Lookup(_, _) => false
    case Place(id, _) => id.Omc?
    case Record(id, _, _, _) => id.Omc?
    case Mark(pid, _, _) => !HandlesEntry(w, pid)
    case _ => true
  }

  lemma TakeUnderKill(w: World, close: CloseOutcome, cfg: Config)
    requires w.kill && w.pc.Batch? && w.pc.queue != [] && w.pc.queue[0] in w.proposals
    ensures NoEntryInHand(Take(w, close, cfg)) && Take(w, close, cfg) == w.(pc := Take(w, close, cfg).pc)
  {
    hide ActiveUnderlyings;
  }

  lemma AnswerUnderKill(w: World, reply: Reply)
    requires w.pc.Place? && w.pc.id.Omc? && Answered(w, reply).Some?
    ensures var v := Answered(w, reply).value;
            && v == w.(pc := v.pc, broker := v.broker) && NoEntryInHand(v)
            && (forall pid :: Om(pid) in v.broker <==> Om(pid) in w.broker)
  {}

  lemma RowUnderKill(w: World)
    requires Inv(w) && w.pc.Record? && w.pc.id.Omc? && w.pc.id.proposal in w.proposals
    ensures var v := RowWritten(w);
            && v.proposals == w.proposals && v.broker == w.broker && NoEntryInHand(v)
            && (forall pid :: Om(pid) in v.orders <==> Om(pid) in w.orders)
  {
    RecordIsOwn(w);
    hide Inv;
  }

  /** Statuses written while no entry is in hand are not an entry's, or release one its order lost. */
  lemma StatusUnderKill(w: World, e: Event, cfg: Config, pid: nat)
    requires Inv(w) && NoEntryInHand(w) && Step(w, e, cfg).Some? && HandlesEntry(w, pid)
    ensures var v := Step(w, e, cfg).value;
            && HandlesEntry(v, pid)
            && (v.proposals[pid].status == w.proposals[pid].status || v.proposals[pid].status == BrokerRejected)
  {
    StepDescends(w, e, cfg, pid);
    if e.Insert? {
      InsertIsNew(w);
    } else if !e.WriteStatus? && !e.Unblock? {
      ProposalsUntouched(w, e, cfg);
    }
    hide Inv, Take, Answered, LookedUp, RowWritten, ReportWritten, PendingBatch, Page, MayApprove, MayReport;
  }

  /** The other steps leave the books' entries alone and pick up none. */
  lemma OtherUnderKill(w: World, e: Event, cfg: Config)
    requires Inv(w) && w.kill && NoEntryInHand(w) && Step(w, e, cfg).Some? && Step(w, e, cfg).value.kill
    requires !e.Answer? && !e.WriteRow?
    ensures var v := Step(w, e, cfg).value;
            && NoEntryInHand(v) && v.broker.Keys == w.broker.Keys && v.orders.Keys == w.orders.Keys
  {
    hide PendingBatch, Settled, TerminalUnfilled, Page, MayApprove, MayReport, PcFits, OneSlot, Evidenced, LookedUp;
    if e.TakeNext? { TakeUnderKill(w, e.close, cfg); }
    if e.Insert? { InsertIsNew(w); }
    if w.pc.Mark? { MarkIsKnown(w); }
    hide Take, Inv;
  }

  lemma MarkIsKnown(w: World)
    requires Inv(w) && w.pc.Mark?
    ensures w.pc.pid in w.proposals
  {}

  /** Under the kill switch a step puts no entry in hand, at the broker or in the order table. */
  lemma StepUnderKill(w: World, e: Event, cfg: Config)
    requires Inv(w) && w.kill && NoEntryInHand(w) && Step(w, e, cfg).Some? && Step(w, e, cfg).value.kill
    ensures var v := Step(w, e, cfg).value;
            && NoEntryInHand(v)
            && (forall pid :: Om(pid) in v.broker <==> Om(pid) in w.broker)
            && (forall pid :: Om(pid) in v.orders <==> Om(pid) in w.orders)
            && (forall pid :: HandlesEntry(w, pid) ==>
                  HandlesEntry(v, pid)
                  && (v.proposals[pid].status == w.proposals[pid].status || v.proposals[pid].status == BrokerRejected))
  {
    if e.Answer? {
      AnswerUnderKill(w, e.reply);
    } else if e.WriteRow? {
      RowUnderKill(w);
    } else {
      OtherUnderKill(w, e, cfg);
    }
    hide NoEntryInHand, Inv, Answered, RowWritten;
    var v := Step(w, e, cfg).value;
    forall pid | HandlesEntry(w, pid)
      ensures HandlesEntry(v, pid)
              && (v.proposals[pid].status == w.proposals[pid].status || v.proposals[pid].status == BrokerRejected)
    {
      StatusUnderKill(w, e, cfg, pid);
    }
  }

  lemma RecordIsOwn(w: World)
    requires Inv(w) && w.pc.Record? && w.pc.id.Omc?
    ensures w.pc.id.proposal in w.proposals && w.proposals[w.pc.id.proposal].action == Close
  {}

  lemma InsertIsNew(w: World)
    requires Inv(w)
    ensures w.last + 1 !in w.proposals
  {}

  /** No entry is in hand at any world of the run. */
  lemma {:induction false} RunUnderKill(w: World, es: seq<Event>, cfg: Config)
    requires Inv(w) && w.kill && NoEntryInHand(w) && Run(w, es, cfg).Some?
    requires forall i :: 0 <= i < |es| ==> !es[i].StartTick?
    ensures var v := Run(w, es, cfg).value;
            && v.kill && NoEntryInHand(v)
            && (forall pid :: Om(pid) in v.broker <==> Om(pid) in w.broker)
            && (forall pid :: Om(pid) in v.orders <==> Om(pid) in w.orders)
            && (forall pid :: HandlesEntry(w, pid) ==>
                  HandlesEntry(v, pid)
                  && (v.proposals[pid].status == w.proposals[pid].status || v.proposals[pid].status == BrokerRejected))
    decreases |es|
  {
    hide Inv, NoEntryInHand, Step;
    if es != [] {
      KillStays(w, es[0], cfg);
      StepKeepsInv(w, es[0], cfg);
      StepUnderKill(w, es[0], cfg);
      RunUnderKill(Step(w, es[0], cfg).value, es[1..], cfg);
    }
  }

  lemma KillStays(w: World, e: Event, cfg: Config)
    requires Step(w, e, cfg).Some? && !e.StartTick?
    ensures Step(w, e, cfg).value.kill == w.kill
  {
    hide ActiveUnderlyings, PendingBatch, Settled, TerminalUnfilled, Page, MayApprove, MayReport;
  }

  /**
   * From the start of a tick under the kill switch to the next start, whoever acts and whatever
   * crashes: no entry order is sent or recorded, and every entry keeps its status unless it is
   * released because its order opened nothing. Closing proposals go on.
   */
  lemma {:induction false} KillSwitchStopsEntries(w: World, es: seq<Event>, cfg: Config)
    requires Inv(w) && w.pc.Idle? && Run(w, [StartTick(true)] + es, cfg).Some?
    requires forall i :: 0 <= i < |es| ==> !es[i].StartTick?
    ensures var v := Run(w, [StartTick(true)] + es, cfg).value;
            && (forall pid :: Om(pid) in v.broker <==> Om(pid) in w.broker)
            && (forall pid :: Om(pid) in v.orders <==> Om(pid) in w.orders)
            && (forall pid :: pid in w.proposals && w.proposals[pid].action == Open ==>
                  pid in v.proposals
                  && (v.proposals[pid].status == w.proposals[pid].status || v.proposals[pid].status == BrokerRejected))
  {
    hide Inv, PendingBatch;
    assert ([StartTick(true)] + es)[1..] == es;
    var w1 := Step(w, StartTick(true), cfg).value;
    StepKeepsInv(w, StartTick(true), cfg);
    hide Step, Run;
    RunUnderKill(w1, es, cfg);
    forall pid | pid in w.proposals && w.proposals[pid].action == Open ensures HandlesEntry(w1, pid) { }
  }
}
