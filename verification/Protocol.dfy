/**
 * The proposal/order protocol as a state machine: one execution agent over the store and the
 * broker, every await a place where it can crash and where other agents and the broker can act.
 */
module Protocol {
  import opened Models
  import opened Store

  /** What the broker says about one order. */
  datatype Report = Report(status: string, filledQty: Option<real>)

  /** Where the agent stands between two awaits. `queue` is the rest of the batch it picked up. */
  datatype Pc =
    | Idle
    | Batch(queue: seq<nat>)
    | Gate(pid: nat, queue: seq<nat>)
    | Place(id: ClientId, queue: seq<nat>)
    | Lookup(pid: nat, queue: seq<nat>)
    | Record(id: ClientId, queue: seq<nat>, row: string, next: Status)
    | Mark(pid: nat, queue: seq<nat>, next: Status)
    | Polling(ids: seq<ClientId>)
    | Write(id: ClientId, report: Report, ids: seq<ClientId>)
    | Release(pid: nat, ids: seq<ClientId>)

  datatype World = World(
    proposals: Proposals, last: nat, orders: Orders, orderSeq: nat,
    broker: map<ClientId, Report>, pc: Pc, kill: bool)

  datatype Config = Config(dryRun: bool, perUnderlying: nat)

  /** How a submission came back. A lost call may still have reached the broker. */
  datatype Reply = Accepted(report: Report) | Duplicate | Refused | Lost(landed: Option<Report>)

  datatype CloseOutcome = PositionGone | NoOptionLegs | Priced

  datatype Event =
    | Insert(ts: int, underlying: string, action: Action, status: Status)
    | BrokerMove(id: ClientId, report: Report)
    | Crash
    | StartTick(engaged: bool)
    | TakeNext(close: CloseOutcome)
    | Verdict(approved: bool, seen: set<ClientId>)
    | Answer(reply: Reply)
    | LookUp
    | WriteRow
    | WriteStatus
    | StartReconcile(rows: seq<ClientId>)
    | Poll(found: Option<Report>)
    | WriteReport
    | Unblock
    | EndTick

  const POLL_LIMIT: nat := 50

  function Init(): World { World(map[], 0, map[], 0, map[], Idle, false) }

  // ---- One step -----------------------------------------------------------

  /** A limited read of the orders in flight: the oldest ones, and all of them unless the page is full. */
  predicate ReadsInFlight(seen: set<ClientId>, orders: Orders) {
    && seen <= InFlight(orders) && |seen| <= POLL_LIMIT
    && (|seen| < POLL_LIMIT ==> seen == InFlight(orders))
    && (forall a, b :: a in seen && b in InFlight(orders) && b !in seen ==> orders[a].seqNo < orders[b].seqNo)
  }

  function Underlyings(ids: set<ClientId>, orders: Orders): set<string>
    requires forall id :: id in ids ==> id in orders
  {
    set id | id in ids :: orders[id].underlying
  }

  /** Approval needs a fresh client order id and, at one position per symbol, no working order on it. */
  predicate MayApprove(w: World, pid: nat, seen: set<ClientId>, cfg: Config) {
    && pid in w.proposals
    && ReadsInFlight(seen, w.orders)
    && Om(pid) !in w.orders
    && (cfg.perUnderlying == 1 ==> w.proposals[pid].underlying !in Underlyings(seen, w.orders))
  }

  function Take(w: World, close: CloseOutcome, cfg: Config): World
    requires w.pc.Batch? && w.pc.queue != [] && w.pc.queue[0] in w.proposals
  {
    var pid, rest := w.pc.queue[0], w.pc.queue[1..];
    w.(pc :=
      match w.proposals[pid].action
      case Unparseable => Mark(pid, rest, Rejected)
      case Hold => Mark(pid, rest, Held)
      case Close =>
        (match close
         case PositionGone => Mark(pid, rest, CloseMissed)
         case NoOptionLegs => Mark(pid, rest, Rejected)
         case Priced => if cfg.dryRun then Mark(pid, rest, DryRunApproved) else Place(Omc(pid), rest))
      case Open =>
        if w.kill then Batch(rest)
        else if w.proposals[pid].underlying in ActiveUnderlyings(w.proposals, Some(pid)) then Mark(pid, rest, Rejected)
        else Gate(pid, rest))
  }

  function Answered(w: World, reply: Reply): Option<World>
    requires w.pc.Place?
  {
    var id, queue := w.pc.id, w.pc.queue;
    match reply
    case Accepted(report) =>
      if id in w.broker then None
      else
        Some(w.(broker := w.broker[id := report],
                pc := if id.Om? then Record(id, queue, "submitted", Submitted)
                      else Record(id, queue, "close_submitted", CloseSubmitted)))
    case Duplicate => Some(w.(pc := if id.Om? then Lookup(id.proposal, queue) else Record(id, queue, "failed", Failed)))
    case Refused => Some(w.(pc := Record(id, queue, "failed", Failed)))
    case Lost(landed) =>
      if landed.Some? && id in w.broker then None
      else
        Some(w.(broker := if landed.Some? then w.broker[id := landed.value] else w.broker,
                pc := Record(id, queue, "failed", Failed)))
  }

  function LookedUp(w: World): World
    requires w.pc.Lookup?
  {
    var id := Om(w.pc.pid);
    w.(pc :=
      if id !in w.broker then Record(id, w.pc.queue, "ambiguous", Ambiguous)
      else
        var r := w.broker[id];
        Record(id, w.pc.queue, r.status, if TerminalUnfilled(r.status, r.filledQty) then BrokerRejected else Submitted))
  }

  function RowWritten(w: World): World
    requires w.pc.Record? && w.pc.id.proposal in w.proposals
  {
    var id, pid := w.pc.id, w.pc.id.proposal;
    w.(orders := WithOrder(w.orders, id, OrderRow(w.orderSeq + 1, pid, w.proposals[pid].underlying, w.pc.row)),
       orderSeq := if id in w.orders then w.orderSeq else w.orderSeq + 1,
       pc := Mark(pid, w.pc.queue, w.pc.next))
  }

  function AsSet(rows: seq<ClientId>): set<ClientId> { set id | id in rows }

  /** Such a read as a list, oldest first. */
  predicate Page(rows: seq<ClientId>, orders: Orders) {
    && (forall id :: id in rows ==> id in InFlight(orders))
    && OldestFirst(rows, orders) && ReadsInFlight(AsSet(rows), orders)
  }

  /** The broker reports what it holds; a repriced close can come back as any report. */
  predicate MayReport(w: World, id: ClientId, r: Report) {
    id in w.broker && (id.Om? ==> r == w.broker[id])
  }

  function ReportWritten(w: World): World
    requires w.pc.Write? && w.pc.id in w.orders
  {
    var id, r := w.pc.id, w.pc.report;
    w.(orders := WithOrderStatus(w.orders, id, r.status),
       pc := if TerminalUnfilled(r.status, r.filledQty) then Release(w.orders[id].proposalId, w.pc.ids)
             else Polling(w.pc.ids))
  }

  predicate MayInsert(s: Status) { s == Pending || s == NoAction || s == LlmFailed }

  /** The successor under an event; `None` when the event cannot happen here. */
  function Step(w: World, e: Event, cfg: Config): Option<World> {
    match e
    case Insert(ts, underlying, action, status) =>
      if !MayInsert(status) then None
      else Some(w.(proposals := w.proposals[w.last + 1 := Proposal(ts, underlying, action, status)], last := w.last + 1))
    case BrokerMove(id, report) =>
      if id !in w.broker || Settled(w.broker[id].status) then None else Some(w.(broker := w.broker[id := report]))
    case Crash => Some(w.(pc := Idle))
    case StartTick(engaged) =>
      if !w.pc.Idle? then None
      else Some(w.(kill := engaged, pc := Batch(PendingBatch(w.proposals, w.last, if engaged then 50 else 5))))
    case TakeNext(close) =>
      if w.pc.Batch? && w.pc.queue != [] && w.pc.queue[0] in w.proposals then Some(Take(w, close, cfg)) else None
    case Verdict(approved, seen) =>
      if !w.pc.Gate? then None
      else if !approved then Some(w.(pc := Mark(w.pc.pid, w.pc.queue, Rejected)))
      else if !MayApprove(w, w.pc.pid, seen, cfg) then None
      else Some(w.(pc := if cfg.dryRun then Mark(w.pc.pid, w.pc.queue, DryRunApproved)
                         else Place(Om(w.pc.pid), w.pc.queue)))
    case Answer(reply) => if w.pc.Place? then Answered(w, reply) else None
    case LookUp => if w.pc.Lookup? then Some(LookedUp(w)) else None
    case WriteRow => if w.pc.Record? && w.pc.id.proposal in w.proposals then Some(RowWritten(w)) else None
    case WriteStatus =>
      if !w.pc.Mark? then None
      else Some(w.(proposals := WithStatus(w.proposals, w.pc.pid, w.pc.next), pc := Batch(w.pc.queue)))
    case StartReconcile(rows) =>
      if w.pc == Batch([]) && Page(rows, w.orders) then Some(w.(pc := Polling(rows))) else None
    case Poll(found) =>
      if !w.pc.Polling? || w.pc.ids == [] then None
      else if found.None? then Some(w.(pc := Polling(w.pc.ids[1..])))
      else if !MayReport(w, w.pc.ids[0], found.value) then None
      else Some(w.(pc := Write(w.pc.ids[0], found.value, w.pc.ids[1..])))
    case WriteReport => if w.pc.Write? && w.pc.id in w.orders then Some(ReportWritten(w)) else None
    case Unblock =>
      if !w.pc.Release? then None
      else Some(w.(proposals := WithStatus(w.proposals, w.pc.pid, BrokerRejected), pc := Polling(w.pc.ids)))
    case EndTick => if w.pc == Polling([]) then Some(w.(pc := Idle)) else None
  }

  /** Where a list of events leads; `None` as soon as one of them cannot happen. */
  function Run(w: World, es: seq<Event>, cfg: Config): Option<World>
    decreases |es|
  {
    if es == [] then Some(w)
    else
      var next := Step(w, es[0], cfg);
      if next.None? then None else Run(next.value, es[1..], cfg)
  }

  // ---- The invariant ------------------------------------------------------

  ghost predicate IsPending(w: World, pid: nat) { pid in w.proposals && w.proposals[pid].status == Pending }

  ghost predicate RightKind(w: World, id: ClientId) {
    id.proposal in w.proposals && w.proposals[id.proposal].action == if id.Om? then Open else Close
  }

  /** Ids in range, and every order the store or the broker knows traces to a proposal of its kind. */
  ghost predicate Linked(w: World) {
    && (forall pid :: pid in w.proposals ==> 1 <= pid <= w.last)
    && (forall id :: id in w.orders ==>
          RightKind(w, id) && w.orders[id].proposalId == id.proposal
          && w.orders[id].underlying == w.proposals[id.proposal].underlying)
    && (forall id :: id in w.broker ==> RightKind(w, id))
  }

  ghost predicate Taken(s: Status) { s == DryRunApproved || s == Submitted }

  /** An entry that has been approved or submitted. */
  ghost predicate TakesSlot(w: World, pid: nat) {
    pid in w.proposals && w.proposals[pid].action == Open && Taken(w.proposals[pid].status)
  }

  /** At most one entry per underlying is approved or submitted. */
  ghost predicate OneSlot(w: World) {
    forall p, q :: TakesSlot(w, p) && TakesSlot(w, q) && w.proposals[p].underlying == w.proposals[q].underlying ==> p == q
  }

  ghost predicate Witnessed(w: World, id: ClientId) { id in w.orders && id in w.broker }

  /** A submitted proposal has its order row written and its order known to the broker. */
  ghost predicate Evidenced(w: World) {
    && (forall pid :: pid in w.proposals && w.proposals[pid].status == Submitted ==> Witnessed(w, Om(pid)))
    && (forall pid :: pid in w.proposals && w.proposals[pid].status == CloseSubmitted ==> Witnessed(w, Omc(pid)))
  }

  /** No other entry on the same underlying holds its slot. */
  ghost predicate Clear(w: World, pid: nat) {
    && pid in w.proposals
    && forall q :: TakesSlot(w, q) && w.proposals[q].underlying == w.proposals[pid].underlying ==> q == pid
  }

  ghost predicate Distinct<T>(s: seq<T>) { forall i, j :: 0 <= i < j < |s| ==> s[i] != s[j] }

  ghost predicate QueueOk(w: World, queue: seq<nat>) {
    Distinct(queue) && forall pid :: pid in queue ==> IsPending(w, pid)
  }

  /** The proposal in hand is still pending and not queued again. */
  ghost predicate Working(w: World, pid: nat, queue: seq<nat>) {
    QueueOk(w, queue) && IsPending(w, pid) && pid !in queue
  }

  /** An entry about to be sent has no row yet and its slot to itself. */
  ghost predicate Entering(w: World, id: ClientId) {
    RightKind(w, id) && (id.Om? ==> id !in w.orders && Clear(w, id.proposal))
  }

  ghost predicate PollOk(w: World, ids: seq<ClientId>) {
    Distinct(ids) && forall id :: id in ids ==> id in InFlight(w.orders)
  }

  /** What holds at each of the agent's stopping points. */
  ghost predicate PcFits(w: World, pc: Pc) {
    match pc
    case Idle => true
    case Batch(queue) => QueueOk(w, queue)
    case Gate(pid, queue) => Working(w, pid, queue) && w.proposals[pid].action == Open && Clear(w, pid)
    case Place(id, queue) => Working(w, id.proposal, queue) && Entering(w, id)
    case Lookup(pid, queue) => Working(w, pid, queue) && Entering(w, Om(pid))
    case Record(id, queue, row, next) =>
      && Working(w, id.proposal, queue) && Entering(w, id) && next != Pending
      && (next == Submitted ==> id.Om? && id in w.broker)
      && (next == CloseSubmitted ==> id.Omc? && id in w.broker)
      && (id.Omc? ==> !Taken(next))
    case Mark(pid, queue, next) =>
      && Working(w, pid, queue) && next != Pending
      && (Taken(next) && w.proposals[pid].action == Open ==> Clear(w, pid))
      && (next == Submitted ==> Witnessed(w, Om(pid)))
      && (next == CloseSubmitted ==> Witnessed(w, Omc(pid)))
    case Polling(ids) => PollOk(w, ids)
    case Write(id, report, ids) => PollOk(w, ids) && id in InFlight(w.orders) && id !in ids && id in w.broker
    case Release(pid, ids) => PollOk(w, ids) && pid in w.proposals
  }

  ghost predicate Inv(w: World) { Linked(w) && OneSlot(w) && Evidenced(w) && PcFits(w, w.pc) }

  // ---- Every step keeps it ------------------------------------------------

  /** The part of the invariant that does not read the agent's position. */
  ghost predicate DataOk(w: World) { Linked(w) && OneSlot(w) && Evidenced(w) }

  lemma SlotsReadProposals(w: World, v: World)
    requires v.proposals == w.proposals && OneSlot(w)
    ensures OneSlot(v)
  {
    assert forall p :: TakesSlot(v, p) == TakesSlot(w, p);
    hide TakesSlot;
  }

  /** Evidence is never lost while no row and no broker order is. */
  lemma EvidenceGrows(w: World, v: World)
    requires v.proposals == w.proposals && w.orders.Keys <= v.orders.Keys && w.broker.Keys <= v.broker.Keys && Evidenced(w)
    ensures Evidenced(v)
  {}

  lemma DataIgnoresPc(w: World, v: World)
    requires DataOk(w) && v == w.(pc := v.pc, kill := v.kill)
    ensures DataOk(v)
  {
    SlotsReadProposals(w, v);
    EvidenceGrows(w, v);
    hide OneSlot, Evidenced;
  }

  lemma InsertKeepsData(w: World, p: Proposal)
    requires DataOk(w) && MayInsert(p.status)
    ensures DataOk(w.(proposals := w.proposals[w.last + 1 := p], last := w.last + 1))
  {
    hide OneSlot, Evidenced;
    InsertKeepsSlots(w, p);
    InsertKeepsEvidence(w, p);
  }

  lemma InsertKeepsSlots(w: World, p: Proposal)
    requires OneSlot(w) && Linked(w) && MayInsert(p.status)
    ensures OneSlot(w.(proposals := w.proposals[w.last + 1 := p], last := w.last + 1))
  {
    var v := w.(proposals := w.proposals[w.last + 1 := p], last := w.last + 1);
    forall q ensures TakesSlot(v, q) == TakesSlot(w, q) { }
    hide TakesSlot;
    forall a, b | TakesSlot(v, a) && TakesSlot(v, b) && v.proposals[a].underlying == v.proposals[b].underlying
      ensures a == b
    {
      assert TakesSlot(w, a) && TakesSlot(w, b);
      assert a in w.proposals && b in w.proposals by { SlotIsKnown(w, a); SlotIsKnown(w, b); }
    }
  }

  lemma SlotIsKnown(w: World, pid: nat)
    requires TakesSlot(w, pid)
    ensures pid in w.proposals
  {}

  lemma InsertKeepsEvidence(w: World, p: Proposal)
    requires Evidenced(w) && Linked(w) && MayInsert(p.status)
    ensures Evidenced(w.(proposals := w.proposals[w.last + 1 := p], last := w.last + 1))
  {}

  lemma BrokerKeepsData(w: World, id: ClientId, r: Report)
    requires DataOk(w) && RightKind(w, id)
    ensures DataOk(w.(broker := w.broker[id := r]))
  {
    var v := w.(broker := w.broker[id := r]);
    SlotsReadProposals(w, v);
    EvidenceGrows(w, v);
    hide OneSlot, Evidenced;
  }

  /** Orders may gain a well-linked row or change a status, never lose one. */
  lemma OrdersKeepData(w: World, orders: Orders, seqNo: nat)
    requires DataOk(w)
    requires forall id :: id in w.orders ==> id in orders
    requires forall id :: id in orders ==>
               RightKind(w, id) && orders[id].proposalId == id.proposal
               && orders[id].underlying == w.proposals[id.proposal].underlying
    ensures DataOk(w.(orders := orders, orderSeq := seqNo))
  {
    var v := w.(orders := orders, orderSeq := seqNo);
    SlotsReadProposals(w, v);
    EvidenceGrows(w, v);
    hide OneSlot, Evidenced;
  }

  lemma StatusKeepsData(w: World, pid: nat, next: Status)
    requires DataOk(w) && pid in w.proposals
    requires Taken(next) && w.proposals[pid].action == Open ==> Clear(w, pid)
    requires next == Submitted ==> Witnessed(w, Om(pid))
    requires next == CloseSubmitted ==> Witnessed(w, Omc(pid))
    ensures DataOk(w.(proposals := WithStatus(w.proposals, pid, next)))
  {
    hide OneSlot, Evidenced, Linked;
    StatusKeepsOneSlot(w, pid, next);
    StatusKeepsEvidence(w, pid, next);
    StatusKeepsLinks(w, pid, next);
  }

  lemma StatusKeepsLinks(w: World, pid: nat, next: Status)
    requires Linked(w) && pid in w.proposals
    ensures Linked(w.(proposals := WithStatus(w.proposals, pid, next)))
  {}

  lemma StatusKeepsOneSlot(w: World, pid: nat, next: Status)
    requires OneSlot(w) && pid in w.proposals
    requires Taken(next) && w.proposals[pid].action == Open ==> Clear(w, pid)
    ensures OneSlot(w.(proposals := WithStatus(w.proposals, pid, next)))
  {
    var v := w.(proposals := WithStatus(w.proposals, pid, next));
    assert forall q :: q != pid ==> TakesSlot(v, q) == TakesSlot(w, q);
  }

  lemma StatusKeepsEvidence(w: World, pid: nat, next: Status)
    requires Evidenced(w) && pid in w.proposals
    requires next == Submitted ==> Witnessed(w, Om(pid))
    requires next == CloseSubmitted ==> Witnessed(w, Omc(pid))
    ensures Evidenced(w.(proposals := WithStatus(w.proposals, pid, next)))
  {}

  lemma StepKeepsData(w: World, e: Event, cfg: Config)
    requires Inv(w) && Step(w, e, cfg).Some?
    ensures DataOk(Step(w, e, cfg).value)
  {
    hide Linked, OneSlot, Evidenced, PcFits;
    var v := Step(w, e, cfg).value;
    if e.Insert? {
      InsertKeepsData(w, Proposal(e.ts, e.underlying, e.action, e.status));
    } else if e.BrokerMove? {
      KnownIsLinked(w, e.id);
      BrokerKeepsData(w, e.id, e.report);
    } else if e.Answer? {
      AnswerKeepsData(w, e.reply);
    } else if e.WriteRow? {
      RowKeepsData(w);
    } else if e.WriteStatus? {
      MarkReady(w);
      StatusKeepsData(w, w.pc.pid, w.pc.next);
      DataIgnoresPc(w.(proposals := WithStatus(w.proposals, w.pc.pid, w.pc.next)), v);
    } else if e.WriteReport? {
      ReportKeepsData(w);
    } else if e.Unblock? {
      ReleaseReady(w);
      StatusKeepsData(w, w.pc.pid, BrokerRejected);
      DataIgnoresPc(w.(proposals := WithStatus(w.proposals, w.pc.pid, BrokerRejected)), v);
    } else {
      DataIgnoresPc(w, v);
    }
  }

  lemma KnownIsLinked(w: World, id: ClientId)
    requires Linked(w) && id in w.broker
    ensures RightKind(w, id)
  {}

  lemma MarkReady(w: World)
    requires Inv(w) && w.pc.Mark?
    ensures var (pid, next) := (w.pc.pid, w.pc.next);
            && pid in w.proposals
            && (Taken(next) && w.proposals[pid].action == Open ==> Clear(w, pid))
            && (next == Submitted ==> Witnessed(w, Om(pid)))
            && (next == CloseSubmitted ==> Witnessed(w, Omc(pid)))
  {}

  lemma ReleaseReady(w: World)
    requires Inv(w) && w.pc.Release?
    ensures w.pc.pid in w.proposals
  {}

  lemma AnswerKeepsData(w: World, reply: Reply)
    requires Inv(w) && w.pc.Place? && Answered(w, reply).Some?
    ensures DataOk(Answered(w, reply).value)
  {
    hide Linked, OneSlot, Evidenced;
    var v := Answered(w, reply).value;
    match reply
    case Accepted(report) =>
      BrokerKeepsData(w, w.pc.id, report);
      DataIgnoresPc(w.(broker := v.broker), v);
    case Lost(landed) =>
      if landed.Some? {
        BrokerKeepsData(w, w.pc.id, landed.value);
        DataIgnoresPc(w.(broker := v.broker), v);
      } else {
        DataIgnoresPc(w, v);
      }
    case Duplicate => DataIgnoresPc(w, v);
    case Refused => DataIgnoresPc(w, v);
  }

  lemma RowKeepsData(w: World)
    requires Inv(w) && w.pc.Record? && w.pc.id.proposal in w.proposals
    ensures DataOk(RowWritten(w))
  {
    hide OneSlot, Evidenced;
    var v := RowWritten(w);
    OrdersKeepData(w, v.orders, v.orderSeq);
    DataIgnoresPc(w.(orders := v.orders, orderSeq := v.orderSeq), v);
  }

  lemma ReportKeepsData(w: World)
    requires Inv(w) && w.pc.Write? && w.pc.id in w.orders
    ensures DataOk(ReportWritten(w))
  {
    hide OneSlot, Evidenced, PcFits, TerminalUnfilled;
    var v := ReportWritten(w);
    OrdersKeepData(w, v.orders, v.orderSeq);
    DataIgnoresPc(w.(orders := v.orders, orderSeq := v.orderSeq), v);
  }

  // ---- ... and leaves the agent where it may stand -------------------------

  lemma FitIgnoresPc(w: World, v: World, pc: Pc)
    requires PcFits(w, pc) && v == w.(pc := v.pc, kill := v.kill)
    ensures PcFits(v, pc)
  {
    assert forall p :: TakesSlot(v, p) == TakesSlot(w, p);
  }

  lemma InsertKeepsFit(w: World, p: Proposal)
    requires Inv(w) && MayInsert(p.status)
    ensures PcFits(w.(proposals := w.proposals[w.last + 1 := p], last := w.last + 1), w.pc)
  {
    var v := w.(proposals := w.proposals[w.last + 1 := p], last := w.last + 1);
    assert forall q :: TakesSlot(v, q) == TakesSlot(w, q);
    assert forall q :: q in w.proposals ==> v.proposals[q] == w.proposals[q];
  }

  lemma BrokerKeepsFit(w: World, id: ClientId, r: Report, pc: Pc)
    requires PcFits(w, pc)
    ensures PcFits(w.(broker := w.broker[id := r]), pc)
  {
    var v := w.(broker := w.broker[id := r]);
    assert forall q :: TakesSlot(v, q) == TakesSlot(w, q);
  }

  lemma PendingBatchFits(w: World, limit: nat)
    ensures PcFits(w, Batch(PendingBatch(w.proposals, w.last, limit)))
  {
    var all := PendingUpTo(w.proposals, w.last);
    var batch := PendingBatch(w.proposals, w.last, limit);
    assert forall i :: 0 <= i < |batch| ==> batch[i] == all[i] && all[i] in all;
  }

  /** A slot check that found no active proposal leaves the underlying clear. */
  lemma NotActiveIsClear(w: World, pid: nat)
    requires pid in w.proposals && w.proposals[pid].underlying !in ActiveUnderlyings(w.proposals, Some(pid))
    ensures Clear(w, pid)
  {}

  lemma HeadWorks(w: World, queue: seq<nat>)
    requires QueueOk(w, queue) && queue != []
    ensures Working(w, queue[0], queue[1..]) && QueueOk(w, queue[1..])
  {
    var rest := queue[1..];
    assert forall i :: 0 <= i < |rest| ==> rest[i] == queue[i + 1];
    assert forall q :: q in rest ==> q in queue;
    assert queue[0] in queue;
  }

  lemma TakeFits(w: World, close: CloseOutcome, cfg: Config)
    requires Inv(w) && w.pc.Batch? && w.pc.queue != [] && w.pc.queue[0] in w.proposals
    ensures PcFits(w, Take(w, close, cfg).pc) && Take(w, close, cfg) == w.(pc := Take(w, close, cfg).pc)
  {
    hide Linked, OneSlot, Evidenced, ActiveUnderlyings, Clear, Working, InFlight;
    var pid, rest := w.pc.queue[0], w.pc.queue[1..];
    HeadWorks(w, w.pc.queue);
    assert Working(w, pid, rest) && QueueOk(w, rest);
    hide QueueOk;
    if w.proposals[pid].underlying !in ActiveUnderlyings(w.proposals, Some(pid)) { NotActiveIsClear(w, pid); }
  }

  lemma VerdictFits(w: World, approved: bool, seen: set<ClientId>, cfg: Config)
    requires Inv(w) && Step(w, Verdict(approved, seen), cfg).Some?
    ensures PcFits(w, Step(w, Verdict(approved, seen), cfg).value.pc)
  {}

  lemma AnswerFits(w: World, reply: Reply)
    requires Inv(w) && w.pc.Place? && Answered(w, reply).Some?
    ensures PcFits(Answered(w, reply).value, Answered(w, reply).value.pc)
  {
    hide Linked, OneSlot, Evidenced, Working, Entering;
    EntryIgnoresBroker(w, Answered(w, reply).value, w.pc.id, w.pc.queue);
  }

  lemma EntryIgnoresBroker(w: World, v: World, id: ClientId, queue: seq<nat>)
    requires v.proposals == w.proposals && v.orders == w.orders
    ensures Working(v, id.proposal, queue) == Working(w, id.proposal, queue) && Entering(v, id) == Entering(w, id)
  {
    assert forall q :: TakesSlot(v, q) == TakesSlot(w, q);
  }

  lemma LookUpFits(w: World)
    requires Inv(w) && w.pc.Lookup?
    ensures PcFits(w, LookedUp(w).pc) && LookedUp(w) == w.(pc := LookedUp(w).pc)
  {}

  lemma RowFits(w: World)
    requires Inv(w) && w.pc.Record? && w.pc.id.proposal in w.proposals
    ensures PcFits(RowWritten(w), RowWritten(w).pc)
  {
    var v := RowWritten(w);
    assert forall q :: TakesSlot(v, q) == TakesSlot(w, q);
  }

  lemma StatusFits(w: World)
    requires Inv(w) && w.pc.Mark?
    ensures PcFits(w.(proposals := WithStatus(w.proposals, w.pc.pid, w.pc.next)), Batch(w.pc.queue))
  {}

  lemma PollFits(w: World, found: Option<Report>, cfg: Config)
    requires Inv(w) && Step(w, Poll(found), cfg).Some?
    ensures PcFits(w, Step(w, Poll(found), cfg).value.pc)
  {
    hide Linked, OneSlot, Evidenced, InFlight;
    var ids, rest := w.pc.ids, w.pc.ids[1..];
    assert forall i :: 0 <= i < |rest| ==> rest[i] == ids[i + 1];
    assert forall id :: id in rest ==> id in ids;
    assert ids[0] in ids;
  }

  lemma ReportFits(w: World)
    requires Inv(w) && w.pc.Write? && w.pc.id in w.orders
    ensures PcFits(ReportWritten(w), ReportWritten(w).pc)
  {
    hide OneSlot, Evidenced, TerminalUnfilled, Settled;
    var v := ReportWritten(w);
    assert forall id :: id in InFlight(w.orders) && id != w.pc.id ==> id in InFlight(v.orders);
    hide InFlight;
  }

  lemma RestFits(w: World)
    ensures PcFits(w, Idle)
  {}

  lemma PageFits(w: World, rows: seq<ClientId>)
    requires Page(rows, w.orders)
    ensures PcFits(w, Polling(rows))
  {
    hide InFlight, ReadsInFlight;
  }

  lemma UnblockFits(w: World)
    requires Inv(w) && w.pc.Release?
    ensures var proposals := WithStatus(w.proposals, w.pc.pid, BrokerRejected);
            PcFits(w.(proposals := proposals, pc := Polling(w.pc.ids)), Polling(w.pc.ids))
  {
    hide InFlight, Linked, OneSlot, Evidenced;
  }

  /** Steps that handle a proposal or an order. */
  lemma AgentKeepsFit(w: World, e: Event, cfg: Config)
    requires Inv(w) && Step(w, e, cfg).Some?
    requires !e.Insert? && !e.BrokerMove? && !e.Crash? && !e.StartTick? && !e.StartReconcile? && !e.EndTick?
    ensures PcFits(Step(w, e, cfg).value, Step(w, e, cfg).value.pc)
  {
    hide Linked, OneSlot, Evidenced, PcFits, Take, Answered, LookedUp, RowWritten, ReportWritten, WithStatus, MayReport, MayApprove;
    var v := Step(w, e, cfg).value;
    if e.TakeNext? {
      TakeFits(w, e.close, cfg);
      FitIgnoresPc(w, v, v.pc);
    } else if e.Verdict? {
      VerdictFits(w, e.approved, e.seen, cfg);
      FitIgnoresPc(w, v, v.pc);
    } else if e.Answer? {
      AnswerFits(w, e.reply);
    } else if e.LookUp? {
      LookUpFits(w);
      FitIgnoresPc(w, v, v.pc);
    } else if e.WriteRow? {
      RowFits(w);
    } else if e.WriteStatus? {
      StatusFits(w);
      FitIgnoresPc(w.(proposals := WithStatus(w.proposals, w.pc.pid, w.pc.next)), v, v.pc);
    } else if e.Poll? {
      PollFits(w, e.found, cfg);
      FitIgnoresPc(w, v, v.pc);
    } else if e.WriteReport? {
      ReportFits(w);
    } else {
      UnblockFits(w);
    }
  }

  lemma StepKeepsFit(w: World, e: Event, cfg: Config)
    requires Inv(w) && Step(w, e, cfg).Some?
    ensures PcFits(Step(w, e, cfg).value, Step(w, e, cfg).value.pc)
  {
    hide Linked, OneSlot, Evidenced, PcFits, Take, Answered, LookedUp, RowWritten, ReportWritten, WithStatus, PendingBatch, Page, MayReport, MayApprove;
    var v := Step(w, e, cfg).value;
    if e.Insert? {
      InsertKeepsFit(w, Proposal(e.ts, e.underlying, e.action, e.status));
    } else if e.BrokerMove? {
      BrokerKeepsFit(w, e.id, e.report, w.pc);
    } else if e.Crash? || e.EndTick? {
      RestFits(v);
    } else if e.StartTick? {
      PendingBatchFits(w, if e.engaged then 50 else 5);
      FitIgnoresPc(w, v, v.pc);
    } else if e.StartReconcile? {
      PageFits(v, e.rows);
    } else {
      AgentKeepsFit(w, e, cfg);
    }
  }

  /** Every step, crashes and other agents' writes included, keeps the invariant. */
  lemma StepKeepsInv(w: World, e: Event, cfg: Config)
    requires Inv(w) && Step(w, e, cfg).Some?
    ensures Inv(Step(w, e, cfg).value)
  {
    hide Linked, OneSlot, Evidenced, PcFits, Step;
    StepKeepsData(w, e, cfg);
    StepKeepsFit(w, e, cfg);
  }
}
