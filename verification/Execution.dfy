/** The execution agent over its store and broker: each of its methods is an uninterrupted run of the protocol. */
module Execution {
  import opened Models
  import opened Store
  import opened Protocol
  import opened ProtocolRuns
  import opened Switches

  // ---- What the agent is up against ---------------------------------------

  /** What the chain, the plan and its limits, and the broker will say about one proposal. */
  datatype Fate = Fate(close: CloseOutcome, approved: bool, reply: Reply)

  /** `readings` is what a poll of an order brings back; a repriced close may bring back any report. */
  datatype Env = Env(fates: nat -> Fate, readings: ClientId -> Option<Report>)

  /** A repeated client order id is refused as a duplicate, whatever else would have happened. */
  function BrokerReply(book: map<ClientId, Report>, id: ClientId, wish: Reply): Reply {
    if id !in book then wish
    else if wish.Accepted? then Duplicate
    else if wish.Lost? then Lost(None) else wish
  }

  /**
   * An order the broker does not know, or a read that failed, reports nothing; an entry reports what the
   * broker holds.
   */
  function Reading(book: map<ClientId, Report>, id: ClientId, env: Env): Option<Report> {
    if env.readings(id).None? || id !in book then None
    else if id.Om? then Some(book[id]) else env.readings(id)
  }

  /** A report is on the order's own row and no other, and a dead order that opened nothing frees its proposal. */
  ghost predicate WrittenDown(id: ClientId, report: Report, before: Orders, after: Orders, ps: Proposals,
                              qs: Proposals) {
    && id in before && after.Keys == before.Keys && after[id].status == report.status
    && (forall other :: other in after && other != id ==> after[other] == before[other])
    && (TerminalUnfilled(report.status, report.filledQty) && before[id].proposalId in ps ==>
          qs == WithStatus(ps, before[id].proposalId, BrokerRejected))
    && (!TerminalUnfilled(report.status, report.filledQty) ==> qs == ps)
  }

  /**
   * The agent's own event, as the environment and the state determine it: nothing crashes, nobody
   * else acts, an approval is given exactly when it may be, a poll brings back the actual reading.
   */
  ghost predicate Own(w: World, e: Event, env: Env, cfg: Config) {
    match e
    case TakeNext(close) => w.pc.Batch? && w.pc.queue != [] && close == env.fates(w.pc.queue[0]).close
    case Verdict(approved, seen) =>
      && w.pc.Gate? && ReadsInFlight(seen, w.orders)
      && approved == (env.fates(w.pc.pid).approved && MayApprove(w, w.pc.pid, seen, cfg))
    case Answer(reply) => w.pc.Place? && reply == BrokerReply(w.broker, w.pc.id, env.fates(w.pc.id.proposal).reply)
    case Poll(found) => w.pc.Polling? && w.pc.ids != [] && found == Reading(w.broker, w.pc.ids[0], env)
    case LookUp => true
    case WriteRow => true
    case WriteStatus => true
    case StartReconcile(_) => true
    case WriteReport => true
    case Unblock => true
    case Insert(_, _, _, _) => false
    case BrokerMove(_, _) => false
    case Crash => false
    case StartTick(_) => false
    case EndTick => false
  }

  ghost function OwnRun(w: World, es: seq<Event>, env: Env, cfg: Config): Option<World>
    decreases |es|
  {
    if es == [] then Some(w)
    else if !Own(w, es[0], env, cfg) || Step(w, es[0], cfg).None? then None
    else OwnRun(Step(w, es[0], cfg).value, es[1..], env, cfg)
  }

  /** `v` is where the agent's own events lead from `w`. */
  ghost predicate Reaches(w: World, v: World, env: Env, cfg: Config) {
    exists es :: OwnRun(w, es, env, cfg) == Some(v)
  }

  /** A tick from its start to its end, with nothing but the agent's own events between. */
  ghost predicate Ticks(w: World, kill: bool, v: World, env: Env, cfg: Config) {
    exists es, w1 ::
      && Step(w, StartTick(kill), cfg) == Some(w1)
      && OwnRun(w1, es, env, cfg).Some?
      && Step(OwnRun(w1, es, env, cfg).value, EndTick, cfg) == Some(v)
  }

  /** A reconcile from its read of the orders in flight to the end of the tick. */
  ghost predicate Reconciles(w: World, v: World, env: Env, cfg: Config) {
    exists es: seq<Event> ::
      && es != [] && es[0].StartReconcile?
      && OwnRun(w, es, env, cfg).Some?
      && Step(OwnRun(w, es, env, cfg).value, EndTick, cfg) == Some(v)
  }

  // ---- Runs put together --------------------------------------------------

  lemma {:induction false} OwnRunAppend(w: World, a: seq<Event>, b: seq<Event>, env: Env, cfg: Config)
    requires OwnRun(w, a, env, cfg).Some?
    ensures OwnRun(w, a + b, env, cfg) == OwnRun(OwnRun(w, a, env, cfg).value, b, env, cfg)
    decreases |a|
  {
    hide Own, Step;
    if a == [] {
      assert a + b == b;
    } else {
      assert (a + b)[1..] == a[1..] + b;
      OwnRunAppend(Step(w, a[0], cfg).value, a[1..], b, env, cfg);
    }
  }

  /** The agent's own runs are runs of the protocol. */
  lemma {:induction false} OwnRunIsRun(w: World, es: seq<Event>, env: Env, cfg: Config)
    requires OwnRun(w, es, env, cfg).Some?
    ensures Run(w, es, cfg) == OwnRun(w, es, env, cfg)
    decreases |es|
  {
    hide Own, Step;
    if es != [] { OwnRunIsRun(Step(w, es[0], cfg).value, es[1..], env, cfg); }
  }

  lemma {:induction false} OneOwn(w: World, e: Event, env: Env, cfg: Config)
    requires Own(w, e, env, cfg) && Step(w, e, cfg).Some?
    ensures OwnRun(w, [e], env, cfg) == Step(w, e, cfg)
  {
    hide Own, Step;
    assert [e][1..] == [];
  }

  lemma ReachesSelf(w: World, env: Env, cfg: Config)
    ensures Reaches(w, w, env, cfg)
  {
    assert OwnRun(w, [], env, cfg) == Some(w);
  }

  lemma ReachesOne(w: World, e: Event, v: World, env: Env, cfg: Config)
    requires Own(w, e, env, cfg) && Step(w, e, cfg) == Some(v)
    ensures Reaches(w, v, env, cfg)
  {
    hide Own, Step;
    OneOwn(w, e, env, cfg);
  }

  lemma ReachesTrans(u: World, w: World, v: World, env: Env, cfg: Config)
    requires Reaches(u, w, env, cfg) && Reaches(w, v, env, cfg)
    ensures Reaches(u, v, env, cfg)
  {
    hide OwnRun;
    var a :| OwnRun(u, a, env, cfg) == Some(w);
    var b :| OwnRun(w, b, env, cfg) == Some(v);
    OwnRunAppend(u, a, b, env, cfg);
    assert OwnRun(u, a + b, env, cfg) == Some(v);
  }

  lemma ReachesNext(u: World, w: World, e: Event, v: World, env: Env, cfg: Config)
    requires Reaches(u, w, env, cfg) && Own(w, e, env, cfg) && Step(w, e, cfg) == Some(v)
    ensures Reaches(u, v, env, cfg)
  {
    hide Own, Step, Reaches;
    ReachesOne(w, e, v, env, cfg);
    ReachesTrans(u, w, v, env, cfg);
  }

  /** A tick is a run of the protocol from idle to idle and keeps its invariant. */
  lemma {:induction false} TickIsARun(w: World, kill: bool, v: World, env: Env, cfg: Config)
    requires Ticks(w, kill, v, env, cfg)
    ensures exists es ::
              Run(w, [StartTick(kill)] + es + [EndTick], cfg) == Some(v) && Step(w, StartTick(kill), cfg).Some?
              && OwnRun(Step(w, StartTick(kill), cfg).value, es, env, cfg).Some?
    ensures Inv(w) ==> Inv(v)
  {
    hide Step, OwnRun, Inv;
    var es, w1 :|
      && Step(w, StartTick(kill), cfg) == Some(w1)
      && OwnRun(w1, es, env, cfg).Some?
      && Step(OwnRun(w1, es, env, cfg).value, EndTick, cfg) == Some(v);
    var w2 := OwnRun(w1, es, env, cfg).value;
    OwnRunIsRun(w1, es, env, cfg);
    RunOne(w, StartTick(kill), cfg);
    RunOne(w2, EndTick, cfg);
    hide Run;
    RunAppend(w, [StartTick(kill)], es, cfg);
    RunAppend(w, [StartTick(kill)] + es, [EndTick], cfg);
    assert Run(w, [StartTick(kill)] + es + [EndTick], cfg) == Some(v);
    if Inv(w) { RunKeepsInv(w, [StartTick(kill)] + es + [EndTick], cfg); }
  }

  // ---- The switches, over a tick ------------------------------------------

  lemma {:induction false} OwnRunInDryRun(w: World, es: seq<Event>, env: Env, cfg: Config)
    requires cfg.dryRun && Ashore(w.pc) && OwnRun(w, es, env, cfg).Some?
    ensures var v := OwnRun(w, es, env, cfg).value;
            v.broker == w.broker && v.orders.Keys == w.orders.Keys
    decreases |es|
  {
    hide Step, Ashore;
    if es != [] {
      assert !es[0].BrokerMove?;
      hide Own;
      StepInDryRun(w, es[0], cfg);
      OwnRunInDryRun(Step(w, es[0], cfg).value, es[1..], env, cfg);
    }
  }

  /** In dry run a tick sends nothing and writes no order row. */
  lemma TickInDryRun(w: World, kill: bool, v: World, env: Env, cfg: Config)
    requires cfg.dryRun && Ticks(w, kill, v, env, cfg)
    ensures v.broker == w.broker && v.orders.Keys == w.orders.Keys
  {
    hide OwnRun;
    var es, w1 :|
      && Step(w, StartTick(kill), cfg) == Some(w1)
      && OwnRun(w1, es, env, cfg).Some?
      && Step(OwnRun(w1, es, env, cfg).value, EndTick, cfg) == Some(v);
    OwnRunInDryRun(w1, es, env, cfg);
  }

  lemma {:induction false} OwnRunStartsNothing(w: World, es: seq<Event>, env: Env, cfg: Config)
    requires OwnRun(w, es, env, cfg).Some?
    ensures forall i :: 0 <= i < |es| ==> !es[i].StartTick?
    decreases |es|
  {
    hide Step;
    if es != [] {
      assert !es[0].StartTick?;
      hide Own;
      OwnRunStartsNothing(Step(w, es[0], cfg).value, es[1..], env, cfg);
      assert es == [es[0]] + es[1..];
    }
  }

  /** Every entry as it was, unless its order opened nothing, and no entry order sent or recorded. */
  ghost predicate NoEntryMoves(w: World, v: World) {
    && (forall pid :: Om(pid) in v.broker <==> Om(pid) in w.broker)
    && (forall pid :: Om(pid) in v.orders <==> Om(pid) in w.orders)
    && (forall pid :: pid in w.proposals && w.proposals[pid].action == Open ==>
          pid in v.proposals
          && (v.proposals[pid].status == w.proposals[pid].status || v.proposals[pid].status == BrokerRejected))
  }

  lemma TickUnderKill(w: World, v: World, env: Env, cfg: Config)
    requires Inv(w) && Ticks(w, true, v, env, cfg)
    ensures NoEntryMoves(w, v)
  {
    hide OwnRun, Run, Inv, Ticks;
    TickIsARun(w, true, v, env, cfg);
    var es :| Run(w, [StartTick(true)] + es + [EndTick], cfg) == Some(v) && Step(w, StartTick(true), cfg).Some?
      && OwnRun(Step(w, StartTick(true), cfg).value, es, env, cfg).Some?;
    OwnRunStartsNothing(Step(w, StartTick(true), cfg).value, es, env, cfg);
    var rest := es + [EndTick];
    assert [StartTick(true)] + es + [EndTick] == [StartTick(true)] + rest;
    KillSwitchStopsEntries(w, rest, cfg);
  }

  // ---- The environment determines the tick --------------------------------

  lemma SubsetOfSameSize<T>(a: set<T>, b: set<T>)
    requires a <= b
    ensures |a| <= |b| && (|a| == |b| ==> a == b)
  {
    assert b == a + (b - a);
  }

  lemma OlderThanTheRest(seen: set<ClientId>, a: ClientId, b: ClientId, orders: Orders)
    requires ReadsInFlight(seen, orders) && a in seen && b in InFlight(orders) && b !in seen
    ensures orders[a].seqNo < orders[b].seqNo
  {}

  lemma PageSize(seen: set<ClientId>, orders: Orders)
    requires ReadsInFlight(seen, orders)
    ensures seen <= InFlight(orders) && |seen| <= POLL_LIMIT && (|seen| < POLL_LIMIT ==> seen == InFlight(orders))
  {}

  /** There is one oldest page of the orders in flight. */
  lemma PageIsUnique(s: set<ClientId>, t: set<ClientId>, orders: Orders)
    requires ReadsInFlight(s, orders) && ReadsInFlight(t, orders)
    ensures s == t
  {
    hide ReadsInFlight, InFlight;
    PageSize(s, orders);
    PageSize(t, orders);
    if s <= t {
      SubsetOfSameSize(s, t);
    } else if t <= s {
      SubsetOfSameSize(t, s);
    } else {
      var a :| a in s && a !in t;
      var b :| b in t && b !in s;
      OlderThanTheRest(s, a, b, orders);
      OlderThanTheRest(t, b, a, orders);
    }
  }

  lemma FrontOf(a: seq<ClientId>, orders: Orders)
    requires OldestFirst(a, orders) && a != []
    ensures OldestFirst(a[..|a| - 1], orders)
    ensures forall id :: id in a[..|a| - 1] <==> id in a && id != a[|a| - 1]
  {
    var front, x := a[..|a| - 1], a[|a| - 1];
    forall id | id in a && id != x ensures id in front {
      var k :| 0 <= k < |a| && a[k] == id;
      assert front[k] == id;
    }
  }

  lemma LastIsYoungest(a: seq<ClientId>, id: ClientId, orders: Orders)
    requires OldestFirst(a, orders) && id in a
    ensures orders[id].seqNo <= orders[a[|a| - 1]].seqNo
    ensures orders[id].seqNo == orders[a[|a| - 1]].seqNo ==> id == a[|a| - 1]
  {
    var k :| 0 <= k < |a| && a[k] == id;
  }

  lemma SomeElement(b: seq<ClientId>)
    ensures b == [] || exists id :: id in b
  {
    if b != [] { assert b[0] in b; }
  }

  /** Listed oldest first, a set of orders has one listing. */
  lemma {:induction false} ListingIsUnique(a: seq<ClientId>, b: seq<ClientId>, orders: Orders)
    requires OldestFirst(a, orders) && OldestFirst(b, orders) && forall id :: id in a <==> id in b
    ensures a == b
    decreases |a|
  {
    if a == [] {
      SomeElement(b);
    } else {
      assert a[0] in a && a[0] in b;
      var x, y := a[|a| - 1], b[|b| - 1];
      assert x in b && y in a;
      LastIsYoungest(a, y, orders);
      LastIsYoungest(b, x, orders);
      FrontOf(a, orders);
      FrontOf(b, orders);
      assert x == y;
      hide OldestFirst;
      var front, other := a[..|a| - 1], b[..|b| - 1];
      forall id | id in front ensures id in other { assert id in a && id != x; }
      forall id | id in other ensures id in front { assert id in b && id != y; }
      ListingIsUnique(front, other, orders);
      assert a == front + [x] && b == other + [y];
    }
  }

  /** At every stopping point the agent has one thing to do and one way to do it. */
  lemma OwnStepIsDetermined(w: World, e: Event, f: Event, env: Env, cfg: Config)
    requires Own(w, e, env, cfg) && Own(w, f, env, cfg) && Step(w, e, cfg).Some? && Step(w, f, cfg).Some?
    ensures Step(w, e, cfg) == Step(w, f, cfg)
  {
    hide ReadsInFlight, Reading, BrokerReply, Take, Answered, MayApprove, OldestFirst, InFlight;
    if e.Verdict? && f.Verdict? {
      PageIsUnique(e.seen, f.seen, w.orders);
    } else if e.StartReconcile? && f.StartReconcile? {
      PageIsUnique(AsSet(e.rows), AsSet(f.rows), w.orders);
      forall id ensures id in e.rows <==> id in f.rows { assert id in AsSet(e.rows) <==> id in AsSet(f.rows); }
      ListingIsUnique(e.rows, f.rows, w.orders);
    }
  }

  /** With nothing left to poll only the end of the tick remains. */
  lemma NothingLeft(w: World, e: Event, env: Env, cfg: Config)
    requires w.pc == Polling([]) && Own(w, e, env, cfg)
    ensures Step(w, e, cfg).None?
  {}

  lemma {:induction false} OwnRunIsDetermined(w: World, a: seq<Event>, b: seq<Event>, env: Env, cfg: Config)
    requires OwnRun(w, a, env, cfg).Some? && OwnRun(w, a, env, cfg).value.pc == Polling([])
    requires OwnRun(w, b, env, cfg).Some? && OwnRun(w, b, env, cfg).value.pc == Polling([])
    ensures OwnRun(w, a, env, cfg) == OwnRun(w, b, env, cfg)
    decreases |a|
  {
    hide Own, Step;
    if a == [] {
      if b != [] { NothingLeft(w, b[0], env, cfg); }
    } else if b == [] {
      NothingLeft(w, a[0], env, cfg);
    } else {
      OwnStepIsDetermined(w, a[0], b[0], env, cfg);
      OwnRunIsDetermined(Step(w, a[0], cfg).value, a[1..], b[1..], env, cfg);
    }
  }

  /** A tick has one outcome: what the contract of `Tick` allows is exactly what the agent does. */
  lemma TickIsDetermined(w: World, kill: bool, v1: World, v2: World, env: Env, cfg: Config)
    requires Ticks(w, kill, v1, env, cfg) && Ticks(w, kill, v2, env, cfg)
    ensures v1 == v2
  {
    hide OwnRun;
    var a, w1 :|
      && Step(w, StartTick(kill), cfg) == Some(w1)
      && OwnRun(w1, a, env, cfg).Some?
      && Step(OwnRun(w1, a, env, cfg).value, EndTick, cfg) == Some(v1);
    var b, w2 :|
      && Step(w, StartTick(kill), cfg) == Some(w2)
      && OwnRun(w2, b, env, cfg).Some?
      && Step(OwnRun(w2, b, env, cfg).value, EndTick, cfg) == Some(v2);
    assert OwnRun(w1, a, env, cfg).value.pc == Polling([]) && OwnRun(w2, b, env, cfg).value.pc == Polling([]);
    OwnRunIsDetermined(w1, a, b, env, cfg);
  }

  class Broker {
    var book: map<ClientId, Report>

    constructor ()
      ensures book == map[]
    {
      book := map[];
    }

    method PlaceOrder(id: ClientId, wish: Reply) returns (reply: Reply)
      modifies this
      ensures reply == BrokerReply(old(book), id, wish)
      ensures book == if reply.Accepted? then old(book)[id := reply.report]
                      else if reply.Lost? && reply.landed.Some? then old(book)[id := reply.landed.value]
                      else old(book)
    {
      reply := wish;
      if id in book {
        if wish.Accepted? { reply := Duplicate; }
        if wish.Lost? { reply := Lost(None); }
      } else if wish.Accepted? {
        book := book[id := wish.report];
      } else if wish.Lost? && wish.landed.Some? {
        book := book[id := wish.landed.value];
      }
    }
  }

  // ---- Stretches of the reconcile -----------------------------------------

  /** One report written down, and the proposal released when its order opened nothing. */
  function Reconciled(w: World, id: ClientId, found: Option<Report>, rest: seq<ClientId>): World
    requires id in w.orders
  {
    if found.None? then w.(pc := Polling(rest))
    else
      w.(orders := WithOrderStatus(w.orders, id, found.value.status),
         proposals := if TerminalUnfilled(found.value.status, found.value.filledQty)
                      then WithStatus(w.proposals, w.orders[id].proposalId, BrokerRejected) else w.proposals,
         pc := Polling(rest))
  }

  lemma SkipReaches(w: World, id: ClientId, rest: seq<ClientId>, env: Env, cfg: Config)
    requires w.pc == Polling([id] + rest) && Reading(w.broker, id, env).None?
    ensures Reaches(w, w.(pc := Polling(rest)), env, cfg)
  {
    hide Reaches, Reading;
    assert ([id] + rest)[1..] == rest;
    ReachesOne(w, Poll(None), w.(pc := Polling(rest)), env, cfg);
  }

  lemma ReportReaches(w: World, id: ClientId, rest: seq<ClientId>, env: Env, cfg: Config)
    requires w.pc == Polling([id] + rest) && id in w.orders && Reading(w.broker, id, env).Some?
    ensures Reaches(w, Reconciled(w, id, Reading(w.broker, id, env), rest), env, cfg)
  {
    hide Reaches, TerminalUnfilled;
    assert ([id] + rest)[1..] == rest;
    var r := Reading(w.broker, id, env).value;
    assert MayReport(w, id, r);
    var w1 := w.(pc := Write(id, r, rest));
    ReachesOne(w, Poll(Some(r)), w1, env, cfg);
    hide Reading;
    var w2 := ReportWritten(w1);
    ReachesNext(w, w1, WriteReport, w2, env, cfg);
    if TerminalUnfilled(r.status, r.filledQty) {
      ReachesNext(w, w2, Unblock, Reconciled(w, id, Some(r), rest), env, cfg);
    }
  }

  // ---- What becomes of one proposal ---------------------------------------

  /** The status set and nothing else touched. */
  function Marked(w: World, pid: nat, next: Status, pc: Pc): World {
    w.(proposals := WithStatus(w.proposals, pid, next), pc := pc)
  }

  /** The order row written unless the id has one, and the status set. */
  function Concluded(w: World, id: ClientId, row: string, next: Status, pc: Pc): World
    requires id.proposal in w.proposals
  {
    w.(orders := WithOrder(w.orders, id, OrderRow(w.orderSeq + 1, id.proposal, w.proposals[id.proposal].underlying, row)),
       orderSeq := if id in w.orders then w.orderSeq else w.orderSeq + 1,
       proposals := WithStatus(w.proposals, id.proposal, next),
       pc := pc)
  }

  /**
   * The broker's book after an order is sent: a fresh id that was accepted, or reached it though the
   * reply was lost.
   */
  function BookAfter(book: map<ClientId, Report>, id: ClientId, wish: Reply): map<ClientId, Report> {
    if id in book then book
    else
      match wish
      case Accepted(report) => book[id := report]
      case Lost(Some(report)) => book[id := report]
      case _ => book
  }

  /** The row and status recorded for an order that was sent. */
  function Recorded(book: map<ClientId, Report>, id: ClientId, wish: Reply): (string, Status) {
    if wish.Accepted? && id !in book then (if id.Om? then ("submitted", Submitted) else ("close_submitted", CloseSubmitted))
    else if id.Om? && (wish.Accepted? || wish.Duplicate?) then
      if id !in book then ("ambiguous", Ambiguous)
      else if TerminalUnfilled(book[id].status, book[id].filledQty) then (book[id].status, BrokerRejected)
      else (book[id].status, Submitted)
    else ("failed", Failed)
  }

  /** An order sent under `id` and written down. */
  function SentOff(w: World, id: ClientId, wish: Reply, pc: Pc): World
    requires id.proposal in w.proposals
  {
    var (row, next) := Recorded(w.broker, id, wish);
    Concluded(w.(broker := BookAfter(w.broker, id, wish)), id, row, next, pc)
  }

  /** An entry past the slot check: refused, stopped in dry run, or sent. */
  ghost predicate Gated(w: World, v: World, pid: nat, env: Env, cfg: Config)
    requires pid in w.proposals
  {
    exists seen | ReadsInFlight(seen, w.orders) ::
      v == if !env.fates(pid).approved || !MayApprove(w, pid, seen, cfg) then Marked(w, pid, Rejected, v.pc)
           else if cfg.dryRun then Marked(w, pid, DryRunApproved, v.pc)
           else SentOff(w, Om(pid), env.fates(pid).reply, v.pc)
  }

  /** All that handling one proposal changes, by what it asks for. */
  ghost predicate Handled(w: World, v: World, pid: nat, env: Env, cfg: Config)
    requires pid in w.proposals
  {
    match w.proposals[pid].action
    case Unparseable => v == Marked(w, pid, Rejected, v.pc)
    case Hold => v == Marked(w, pid, Held, v.pc)
    case Close =>
      (match env.fates(pid).close
       case PositionGone => v == Marked(w, pid, CloseMissed, v.pc)
       case NoOptionLegs => v == Marked(w, pid, Rejected, v.pc)
       case Priced =>
         if cfg.dryRun then v == Marked(w, pid, DryRunApproved, v.pc)
         else v == SentOff(w, Omc(pid), env.fates(pid).reply, v.pc))
    case Open =>
      if w.kill then v == w.(pc := v.pc)
      else if exists q :: q != pid && q in w.proposals && w.proposals[q].underlying == w.proposals[pid].underlying
                       && w.proposals[q].status in {Pending, DryRunApproved, Submitted}
      then v == Marked(w, pid, Rejected, v.pc)
      else Gated(w, v, pid, env, cfg)
  }

  /**
   * Out of dry run, a priced close the broker takes under a fresh id is at the broker, in the order
   * table and submitted.
   */
  lemma PricedCloseGoesThrough(w: World, v: World, pid: nat, report: Report, env: Env, cfg: Config)
    requires pid in w.proposals && Handled(w, v, pid, env, cfg) && w.proposals[pid].action == Close && !cfg.dryRun
    requires env.fates(pid).close == Priced && env.fates(pid).reply == Accepted(report)
    requires Omc(pid) !in w.broker && Omc(pid) !in w.orders
    ensures v.broker == w.broker[Omc(pid) := report]
    ensures v.orders == w.orders[Omc(pid) := OrderRow(w.orderSeq + 1, pid, w.proposals[pid].underlying, "close_submitted")]
    ensures v.proposals == w.proposals[pid := w.proposals[pid].(status := CloseSubmitted)]
  {}

  /** Likewise an entry that is approved, its underlying free and the kill switch off. */
  lemma ApprovedEntryGoesThrough(w: World, v: World, pid: nat, report: Report, env: Env, cfg: Config)
    requires pid in w.proposals && Handled(w, v, pid, env, cfg) && w.proposals[pid].action == Open
    requires !cfg.dryRun && !w.kill && env.fates(pid).approved && env.fates(pid).reply == Accepted(report)
    requires Om(pid) !in w.broker && Om(pid) !in w.orders
    requires forall q :: q != pid && q in w.proposals && w.proposals[q].underlying == w.proposals[pid].underlying ==>
               w.proposals[q].status !in {Pending, DryRunApproved, Submitted}
    requires forall id :: id in InFlight(w.orders) ==> w.orders[id].underlying != w.proposals[pid].underlying
    ensures v.broker == w.broker[Om(pid) := report]
    ensures v.orders == w.orders[Om(pid) := OrderRow(w.orderSeq + 1, pid, w.proposals[pid].underlying, "submitted")]
    ensures v.proposals == w.proposals[pid := w.proposals[pid].(status := Submitted)]
  {
    hide InFlight;
    var seen :| ReadsInFlight(seen, w.orders)
      && v == if !env.fates(pid).approved || !MayApprove(w, pid, seen, cfg) then Marked(w, pid, Rejected, v.pc)
              else if cfg.dryRun then Marked(w, pid, DryRunApproved, v.pc)
              else SentOff(w, Om(pid), env.fates(pid).reply, v.pc);
    assert MayApprove(w, pid, seen, cfg);
  }

  /**
   * A tick picks up the oldest pending proposals in the order they were written: five, or fifty under
   * the kill switch.
   */
  lemma TickPicksTheOldest(w: World, kill: bool, cfg: Config)
    requires Step(w, StartTick(kill), cfg).Some?
    ensures var v, limit := Step(w, StartTick(kill), cfg).value, if kill then 50 else 5;
            && v == w.(pc := v.pc, kill := kill) && v.pc.Batch? && |v.pc.queue| <= limit
            && (forall i, j :: 0 <= i < j < |v.pc.queue| ==> v.pc.queue[i] < v.pc.queue[j])
            && (forall pid: nat :: pid in v.pc.queue ==> pid <= w.last && IsPending(w, pid))
            && (forall pid: nat :: pid <= w.last && IsPending(w, pid) && pid !in v.pc.queue ==>
                  |v.pc.queue| == limit && forall q :: q in v.pc.queue ==> q < pid)
  {
    var all, limit := PendingUpTo(w.proposals, w.last), if kill then 50 else 5;
    var queue := PendingBatch(w.proposals, w.last, limit);
    assert forall i :: 0 <= i < |queue| ==> queue[i] == all[i] && all[i] in all;
    forall pid: nat | pid <= w.last && IsPending(w, pid) && pid !in queue
      ensures |queue| == limit && forall q :: q in queue ==> q < pid
    {
      assert pid in all;
      var k :| 0 <= k < |all| && all[k] == pid;
      assert k < |queue| ==> queue[k] == pid;
    }
  }

  /** How the wish, the broker's actual reply and what is recorded hang together. */
  lemma ReplyTable(book: map<ClientId, Report>, id: ClientId, wish: Reply)
    ensures var reply := BrokerReply(book, id, wish);
            && BookAfter(book, id, wish)
               == (if reply.Accepted? then book[id := reply.report]
                   else if reply.Lost? && reply.landed.Some? then book[id := reply.landed.value]
                   else book)
            && (reply.Duplicate? && id.Om? ==> Recorded(book, id, wish) == Recorded(book, id, Duplicate))
            && (!(reply.Duplicate? && id.Om?) ==>
                  Recorded(book, id, wish) ==
                    if !reply.Accepted? then ("failed", Failed)
                    else if id.Om? then ("submitted", Submitted) else ("close_submitted", CloseSubmitted))
  {
    hide TerminalUnfilled;
  }

  /** The world once the broker has answered, wherever the agent then stands. */
  function Answering(w: World, id: ClientId, wish: Reply, pc: Pc): World {
    w.(broker := BookAfter(w.broker, id, wish), pc := pc)
  }

  lemma AnswerReaches(w: World, id: ClientId, queue: seq<nat>, pc: Pc, env: Env, cfg: Config)
    requires w.pc == Place(id, queue)
    requires var wish := env.fates(id.proposal).reply;
             pc == if BrokerReply(w.broker, id, wish).Duplicate? && id.Om? then Lookup(id.proposal, queue)
                   else Record(id, queue, Recorded(w.broker, id, wish).0, Recorded(w.broker, id, wish).1)
    ensures Reaches(w, Answering(w, id, env.fates(id.proposal).reply, pc), env, cfg)
  {
    hide Reaches, Recorded, BookAfter;
    var wish := env.fates(id.proposal).reply;
    ReplyTable(w.broker, id, wish);
    ReachesOne(w, Answer(BrokerReply(w.broker, id, wish)), Answering(w, id, wish, pc), env, cfg);
  }

  lemma SentOffIs(w: World, id: ClientId, wish: Reply, pc: Pc, next: Pc)
    requires id.proposal in w.proposals
    ensures var (row, status) := Recorded(w.broker, id, wish);
            Concluded(Answering(w, id, wish, pc), id, row, status, next) == SentOff(w, id, wish, next)
  {
    hide Recorded, BookAfter, WithOrder;
  }

  lemma ActiveMeans(ps: Proposals, pid: nat, underlying: string)
    ensures underlying in ActiveUnderlyings(ps, Some(pid))
       <==> exists q :: q != pid && q in ps && ps[q].underlying == underlying && ps[q].status in {Pending, DryRunApproved, Submitted}
  {}

  /** Where the agent stands does not matter to what the gate lets through. */
  lemma GatedIgnoresPc(w: World, w1: World, v: World, pid: nat, env: Env, cfg: Config)
    requires pid in w.proposals && w1 == w.(pc := w1.pc) && Gated(w1, v, pid, env, cfg)
    ensures Gated(w, v, pid, env, cfg)
  {
    hide ReadsInFlight, Recorded, BookAfter;
    var seen :| ReadsInFlight(seen, w1.orders)
      && v == if !env.fates(pid).approved || !MayApprove(w1, pid, seen, cfg) then Marked(w1, pid, Rejected, v.pc)
              else if cfg.dryRun then Marked(w1, pid, DryRunApproved, v.pc)
              else SentOff(w1, Om(pid), env.fates(pid).reply, v.pc);
    assert ReadsInFlight(seen, w.orders);
  }

  class ExecutionAgent {
    const store: Store
    const broker: Broker
    const cfg: Config

    constructor (store: Store, broker: Broker, cfg: Config)
      ensures this.store == store && this.broker == broker && this.cfg == cfg
    {
      this.store, this.broker, this.cfg := store, broker, cfg;
    }

    /** The protocol state while the agent stands at `pc`. */
    ghost function At(pc: Pc, kill: bool): World
      reads store, broker
    {
      World(store.proposals, store.proposalSeq, store.orders, store.orderSeq, broker.book, pc, kill)
    }

    /** Write the order row, then the proposal's status. */
    method Conclude(id: ClientId, row: string, next: Status, ghost queue: seq<nat>, ghost kill: bool, env: Env)
      requires store.Valid() && id.proposal in store.proposals
      modifies store
      ensures store.Valid()
      ensures Reaches(old(At(Record(id, queue, row, next), kill)), At(Batch(queue), kill), env, cfg)
      ensures At(Batch(queue), kill) == Concluded(old(At(Record(id, queue, row, next), kill)), id, row, next, Batch(queue))
      ensures store.proposals.Keys == old(store.proposals).Keys
    {
      hide Reaches, WithOrder;
      ghost var w0 := At(Record(id, queue, row, next), kill);
      store.RecordOrder(id.proposal, id, store.proposals[id.proposal].underlying, row);
      ghost var w1 := At(Mark(id.proposal, queue, next), kill);
      RowReaches(w0, w1, env, cfg);
      Decide(id.proposal, next, queue, kill, env);
      ReachesTrans(w0, w1, At(Batch(queue), kill), env, cfg);
    }

    /** The broker says the id is taken: reconcile with the order it holds, if it has one. */
    method ReconcileDuplicate(pid: nat, ghost queue: seq<nat>, ghost kill: bool, env: Env)
      requires store.Valid() && pid in store.proposals
      modifies store
      ensures store.Valid()
      ensures Reaches(old(At(Lookup(pid, queue), kill)), At(Batch(queue), kill), env, cfg)
      ensures var (row, next) := Recorded(broker.book, Om(pid), Duplicate);
              At(Batch(queue), kill) == Concluded(old(At(Lookup(pid, queue), kill)), Om(pid), row, next, Batch(queue))
      ensures store.proposals.Keys == old(store.proposals).Keys
    {
      hide Reaches, TerminalUnfilled;
      var id := Om(pid);
      ghost var w0 := At(Lookup(pid, queue), kill);
      var row, next := "ambiguous", Ambiguous;
      if id in broker.book {
        var r := broker.book[id];
        row := r.status;
        next := if TerminalUnfilled(r.status, r.filledQty) then BrokerRejected else Submitted;
      }
      ghost var w1 := At(Record(id, queue, row, next), kill);
      ReachesOne(w0, LookUp, w1, env, cfg);
      Conclude(id, row, next, queue, kill, env);
      ReachesTrans(w0, w1, At(Batch(queue), kill), env, cfg);
    }

    /** Send an approved entry or a priced close, and write down how it went. */
    method Submit(id: ClientId, ghost queue: seq<nat>, ghost kill: bool, env: Env)
      requires store.Valid() && id.proposal in store.proposals
      modifies store, broker
      ensures store.Valid()
      ensures Reaches(old(At(Place(id, queue), kill)), At(Batch(queue), kill), env, cfg)
      ensures At(Batch(queue), kill)
           == SentOff(old(At(Place(id, queue), kill)), id, env.fates(id.proposal).reply, Batch(queue))
      ensures store.proposals.Keys == old(store.proposals).Keys
    {
      hide Reaches, Recorded, BookAfter, Concluded, SentOff, BrokerReply;
      ghost var w0, wish := At(Place(id, queue), kill), env.fates(id.proposal).reply;
      ReplyTable(broker.book, id, wish);
      var reply := broker.PlaceOrder(id, env.fates(id.proposal).reply);
      if reply.Duplicate? && id.Om? {
        ghost var w1 := At(Lookup(id.proposal, queue), kill);
        AnswerReaches(w0, id, queue, w1.pc, env, cfg);
        SentOffIs(w0, id, wish, w1.pc, Batch(queue));
        ReconcileDuplicate(id.proposal, queue, kill, env);
        ReachesTrans(w0, w1, At(Batch(queue), kill), env, cfg);
        return;
      }
      var row, next := "failed", Failed;
      if reply.Accepted? {
        row := if id.Om? then "submitted" else "close_submitted";
        next := if id.Om? then Submitted else CloseSubmitted;
      }
      ghost var w1 := At(Record(id, queue, row, next), kill);
      AnswerReaches(w0, id, queue, w1.pc, env, cfg);
      SentOffIs(w0, id, wish, w1.pc, Batch(queue));
      Conclude(id, row, next, queue, kill, env);
      ReachesTrans(w0, w1, At(Batch(queue), kill), env, cfg);
    }

    /** Set a status and move on. */
    method Decide(pid: nat, next: Status, ghost queue: seq<nat>, ghost kill: bool, env: Env)
      requires store.Valid()
      modifies store
      ensures store.Valid()
      ensures Reaches(old(At(Mark(pid, queue, next), kill)), At(Batch(queue), kill), env, cfg)
      ensures At(Batch(queue), kill) == Marked(old(At(Mark(pid, queue, next), kill)), pid, next, Batch(queue))
      ensures store.proposals.Keys == old(store.proposals).Keys
    {
      hide Reaches;
      ghost var w0 := At(Mark(pid, queue, next), kill);
      store.UpdateProposalStatus(pid, next);
      ReachesOne(w0, WriteStatus, At(Batch(queue), kill), env, cfg);
    }

    /** The risk gate's idempotency and slot checks, on a page of the orders in flight. */
    method Approves(pid: nat, wish: bool) returns (ok: bool, ghost seen: set<ClientId>)
      requires store.Valid() && pid in store.proposals
      ensures ReadsInFlight(seen, store.orders)
      ensures ok == (wish && MayApprove(At(Gate(pid, []), false), pid, seen, cfg))
    {
      hide ReadsInFlight;
      var rows := store.OrdersInFlight(POLL_LIMIT);
      var page := AsSet(rows);
      seen := page;
      PageIsFull(rows, store.orders);
      ok := wish && Om(pid) !in store.orders
        && (cfg.perUnderlying == 1 ==> store.proposals[pid].underlying !in Underlyings(page, store.orders));
    }

    method ProcessOne(pid: nat, ghost rest: seq<nat>, kill: bool, env: Env)
      requires store.Valid() && pid in store.proposals
      modifies store, broker
      ensures store.Valid()
      ensures Reaches(old(At(Batch([pid] + rest), kill)), At(Batch(rest), kill), env, cfg)
      ensures Handled(old(At(Batch([pid] + rest), kill)), At(Batch(rest), kill), pid, env, cfg)
      ensures store.proposals.Keys == old(store.proposals).Keys
    {
      hide Reaches;
      ghost var w0 := At(Batch([pid] + rest), kill);
      var p := store.proposals[pid];
      assert ([pid] + rest)[1..] == rest;
      if p.action == Unparseable {
        DecideAtOnce(pid, Rejected, rest, kill, env);
      } else if p.action == Close {
        ExecuteClose(pid, rest, kill, env);
      } else if p.action == Open && kill {
        ReachesOne(w0, TakeNext(env.fates(pid).close), At(Batch(rest), kill), env, cfg);
      } else if p.action == Hold {
        DecideAtOnce(pid, Held, rest, kill, env);
      } else {
        ProcessOpen(pid, rest, kill, env);
      }
    }

    /** A proposal whose status follows from picking it up. */
    method DecideAtOnce(pid: nat, next: Status, ghost rest: seq<nat>, ghost kill: bool, env: Env)
      requires store.Valid() && pid in store.proposals
      requires Take(At(Batch([pid] + rest), kill), env.fates(pid).close, cfg) == At(Mark(pid, rest, next), kill)
      modifies store
      ensures store.Valid()
      ensures Reaches(old(At(Batch([pid] + rest), kill)), At(Batch(rest), kill), env, cfg)
      ensures At(Batch(rest), kill) == Marked(old(At(Batch([pid] + rest), kill)), pid, next, Batch(rest))
      ensures store.proposals.Keys == old(store.proposals).Keys
    {
      hide Reaches, Take;
      ghost var w0, w1 := At(Batch([pid] + rest), kill), At(Mark(pid, rest, next), kill);
      ReachesOne(w0, TakeNext(env.fates(pid).close), w1, env, cfg);
      Decide(pid, next, rest, kill, env);
      ReachesTrans(w0, w1, At(Batch(rest), kill), env, cfg);
    }

    method ExecuteClose(pid: nat, ghost rest: seq<nat>, ghost kill: bool, env: Env)
      requires store.Valid() && pid in store.proposals && store.proposals[pid].action == Close
      modifies store, broker
      ensures store.Valid()
      ensures Reaches(old(At(Batch([pid] + rest), kill)), At(Batch(rest), kill), env, cfg)
      ensures Handled(old(At(Batch([pid] + rest), kill)), At(Batch(rest), kill), pid, env, cfg)
      ensures store.proposals.Keys == old(store.proposals).Keys
    {
      hide Reaches;
      ghost var w0 := At(Batch([pid] + rest), kill);
      assert ([pid] + rest)[1..] == rest;
      var close := env.fates(pid).close;
      if close == Priced && !cfg.dryRun {
        ghost var w1 := At(Place(Omc(pid), rest), kill);
        ReachesOne(w0, TakeNext(close), w1, env, cfg);
        Submit(Omc(pid), rest, kill, env);
        ReachesTrans(w0, w1, At(Batch(rest), kill), env, cfg);
      } else {
        var next := match close
          case PositionGone => CloseMissed
          case NoOptionLegs => Rejected
          case Priced => DryRunApproved;
        DecideAtOnce(pid, next, rest, kill, env);
      }
    }

    /** Slot check, then plan and risk gate, then dry-run stop or submission. */
    method ProcessOpen(pid: nat, ghost rest: seq<nat>, ghost kill: bool, env: Env)
      requires store.Valid() && pid in store.proposals && store.proposals[pid].action == Open && !kill
      modifies store, broker
      ensures store.Valid()
      ensures Reaches(old(At(Batch([pid] + rest), kill)), At(Batch(rest), kill), env, cfg)
      ensures Handled(old(At(Batch([pid] + rest), kill)), At(Batch(rest), kill), pid, env, cfg)
      ensures store.proposals.Keys == old(store.proposals).Keys
    {
      hide Reaches, Gated, ActiveUnderlyings;
      ActiveMeans(store.proposals, pid, store.proposals[pid].underlying);
      ghost var w0 := At(Batch([pid] + rest), kill);
      assert ([pid] + rest)[1..] == rest;
      var active := store.ActiveProposalUnderlyings(Some(pid));
      if store.proposals[pid].underlying in active {
        DecideAtOnce(pid, Rejected, rest, kill, env);
        return;
      }
      ghost var w1 := At(Gate(pid, rest), kill);
      ReachesOne(w0, TakeNext(env.fates(pid).close), w1, env, cfg);
      PassGate(pid, rest, kill, env);
      GatedIgnoresPc(w0, w1, At(Batch(rest), kill), pid, env, cfg);
      ReachesTrans(w0, w1, At(Batch(rest), kill), env, cfg);
    }

    method PassGate(pid: nat, ghost rest: seq<nat>, ghost kill: bool, env: Env)
      requires store.Valid() && pid in store.proposals
      modifies store, broker
      ensures store.Valid()
      ensures Reaches(old(At(Gate(pid, rest), kill)), At(Batch(rest), kill), env, cfg)
      ensures Gated(old(At(Gate(pid, rest), kill)), At(Batch(rest), kill), pid, env, cfg)
      ensures store.proposals.Keys == old(store.proposals).Keys
    {
      hide Reaches, ReadsInFlight;
      ghost var w1 := At(Gate(pid, rest), kill);
      var ok; ghost var seen;
      ok, seen := Approves(pid, env.fates(pid).approved);
      assert ok == (env.fates(pid).approved && MayApprove(w1, pid, seen, cfg));
      hide MayApprove;
      if ok && !cfg.dryRun {
        ghost var w2 := At(Place(Om(pid), rest), kill);
        ReachesOne(w1, Verdict(true, seen), w2, env, cfg);
        Submit(Om(pid), rest, kill, env);
        ReachesTrans(w1, w2, At(Batch(rest), kill), env, cfg);
      } else {
        var next := if ok then DryRunApproved else Rejected;
        ghost var w2 := At(Mark(pid, rest, next), kill);
        ReachesOne(w1, Verdict(ok, seen), w2, env, cfg);
        Decide(pid, next, rest, kill, env);
        ReachesTrans(w1, w2, At(Batch(rest), kill), env, cfg);
      }
    }

    /** Poll one order, write down what the broker reports, and release a proposal whose order died. */
    method ReconcileOne(id: ClientId, ghost rest: seq<ClientId>, ghost kill: bool, env: Env)
      requires store.Valid() && id in store.orders
      modifies store
      ensures store.Valid() && store.orders.Keys == old(store.orders).Keys
      ensures At(Polling(rest), kill)
           == Reconciled(old(At(Polling([id] + rest), kill)), id, Reading(broker.book, id, env), rest)
      ensures env.readings(id).None? || id !in broker.book ==>
                store.orders == old(store.orders) && store.proposals == old(store.proposals)
      ensures env.readings(id).Some? && id in broker.book ==>
                var report := if id.Om? then broker.book[id] else env.readings(id).value;
                WrittenDown(id, report, old(store.orders), store.orders, old(store.proposals), store.proposals)
      ensures Reaches(old(At(Polling([id] + rest), kill)), At(Polling(rest), kill), env, cfg)
    {
      hide Reaches, TerminalUnfilled;
      ghost var w0 := At(Polling([id] + rest), kill);
      var found := Reading(broker.book, id, env);
      if found.None? {
        SkipReaches(w0, id, rest, env, cfg);
        return;
      }
      ReportReaches(w0, id, rest, env, cfg);
      var r, pid := found.value, store.orders[id].proposalId;
      store.UpdateOrderStatus(id, r.status);
      if TerminalUnfilled(r.status, r.filledQty) {
        store.UpdateProposalStatus(pid, BrokerRejected);
      }
    }

    method PollRows(rows: seq<ClientId>, ghost kill: bool, env: Env)
      requires store.Valid() && forall i :: 0 <= i < |rows| ==> rows[i] in store.orders.Keys
      modifies store
      ensures store.Valid()
      ensures Reaches(old(At(Polling(rows), kill)), At(Polling([]), kill), env, cfg)
    {
      hide *;
      ghost var w0 := At(Polling(rows), kill);
      ReachesSelf(w0, env, cfg);
      assert rows[0..] == rows;
      for i := 0 to |rows|
        invariant store.Valid() && store.orders.Keys == old(store.orders).Keys
        invariant Reaches(w0, At(Polling(rows[i..]), kill), env, cfg)
      {
        assert rows[i..] == [rows[i]] + rows[i + 1..];
        ghost var w1 := At(Polling(rows[i..]), kill);
        ReconcileOne(rows[i], rows[i + 1..], kill, env);
        ReachesTrans(w0, w1, At(Polling(rows[i + 1..]), kill), env, cfg);
      }
      assert rows[|rows|..] == [];
    }

    /** Poll every order in flight, oldest first. */
    method Reconcile(ghost kill: bool, env: Env)
      requires store.Valid()
      modifies store
      ensures store.Valid()
      ensures Reconciles(old(At(Batch([]), kill)), At(Idle, kill), env, cfg)
    {
      hide Reaches, Reconciles, ReadsInFlight, InFlight, OldestFirst;
      ghost var w0 := At(Batch([]), kill);
      var rows := store.OrdersInFlight(POLL_LIMIT);
      PageIsFull(rows, store.orders);
      RowsAreKnown(rows, store.orders);
      ghost var w1 := At(Polling(rows), kill);
      PollRows(rows, kill, env);
      ReconcileEnds(w0, rows, w1, At(Polling([]), kill), At(Idle, kill), env, cfg);
    }

    /** The proposals picked up, in turn. */
    method ProcessBatch(batch: seq<nat>, kill: bool, env: Env)
      requires store.Valid() && forall i :: 0 <= i < |batch| ==> batch[i] in store.proposals.Keys
      modifies store, broker
      ensures store.Valid()
      ensures Reaches(old(At(Batch(batch), kill)), At(Batch([]), kill), env, cfg)
    {
      hide *;
      ghost var w0 := At(Batch(batch), kill);
      ReachesSelf(w0, env, cfg);
      assert batch[0..] == batch;
      for i := 0 to |batch|
        invariant store.Valid() && store.proposals.Keys == old(store.proposals).Keys
        invariant Reaches(w0, At(Batch(batch[i..]), kill), env, cfg)
      {
        assert batch[i..] == [batch[i]] + batch[i + 1..];
        ghost var w1 := At(Batch(batch[i..]), kill);
        ProcessOne(batch[i], batch[i + 1..], kill, env);
        ReachesTrans(w0, w1, At(Batch(batch[i + 1..]), kill), env, cfg);
      }
      assert batch[|batch|..] == [];
    }

    /**
     * One tick: the oldest pending proposals in turn, then the reconcile. It is the run of the
     * protocol that the environment determines, so everything proved of runs holds of it.
     */
    method Tick(kill: bool, env: Env, ghost before: bool)
      requires store.Valid()
      modifies store, broker
      ensures store.Valid()
      ensures Ticks(old(At(Idle, before)), kill, At(Idle, kill), env, cfg)
      ensures Inv(old(At(Idle, before))) ==> Inv(At(Idle, kill))
      ensures cfg.dryRun ==> broker.book == old(broker.book) && store.orders.Keys == old(store.orders.Keys)
      ensures kill && Inv(old(At(Idle, before))) ==> NoEntryMoves(old(At(Idle, before)), At(Idle, kill))
    {
      hide Run, Inv, Reaches, Ticks, Reconciles, PendingBatch, NoEntryMoves;
      ghost var w0 := At(Idle, before);
      var batch := store.PendingProposals(if kill then 50 else 5);
      BatchIsKnown(store.proposals, store.proposalSeq, if kill then 50 else 5);
      ghost var w1 := At(Batch(batch), kill);
      assert Step(w0, StartTick(kill), cfg) == Some(w1);
      hide Step;
      ProcessBatch(batch, kill, env);
      ghost var w2 := At(Batch([]), kill);
      Reconcile(kill, env);
      TickEnds(w0, kill, w1, w2, At(Idle, kill), env, cfg);
      TickIsARun(w0, kill, At(Idle, kill), env, cfg);
      if cfg.dryRun { TickInDryRun(w0, kill, At(Idle, kill), env, cfg); }
      if kill && Inv(w0) { TickUnderKill(w0, At(Idle, kill), env, cfg); }
    }
  }

  lemma RowReaches(w: World, v: World, env: Env, cfg: Config)
    requires w.pc.Record? && w.pc.id.proposal in w.proposals && v == RowWritten(w)
    ensures Reaches(w, v, env, cfg)
  {
    hide RowWritten, Reaches;
    ReachesOne(w, WriteRow, v, env, cfg);
  }

  lemma ReconcileEnds(w0: World, rows: seq<ClientId>, w1: World, w2: World, v: World, env: Env, cfg: Config)
    requires w0.pc == Batch([]) && Page(rows, w0.orders) && w1 == w0.(pc := Polling(rows))
    requires Reaches(w1, w2, env, cfg) && w2.pc == Polling([]) && v == w2.(pc := Idle)
    ensures Reconciles(w0, v, env, cfg)
  {
    hide OwnRun, Page;
    var es :| OwnRun(w1, es, env, cfg) == Some(w2);
    OneOwn(w0, StartReconcile(rows), env, cfg);
    OwnRunAppend(w0, [StartReconcile(rows)], es, env, cfg);
    assert ([StartReconcile(rows)] + es)[0] == StartReconcile(rows);
    assert Step(w2, EndTick, cfg) == Some(v);
  }

  lemma TickEnds(w0: World, kill: bool, w1: World, w2: World, v: World, env: Env, cfg: Config)
    requires Step(w0, StartTick(kill), cfg) == Some(w1) && Reaches(w1, w2, env, cfg) && Reconciles(w2, v, env, cfg)
    ensures Ticks(w0, kill, v, env, cfg)
  {
    hide OwnRun, Step;
    var a :| OwnRun(w1, a, env, cfg) == Some(w2);
    var b: seq<Event> :|
      && b != [] && b[0].StartReconcile?
      && OwnRun(w2, b, env, cfg).Some?
      && Step(OwnRun(w2, b, env, cfg).value, EndTick, cfg) == Some(v);
    OwnRunAppend(w1, a, b, env, cfg);
    assert OwnRun(w1, a + b, env, cfg) == OwnRun(w2, b, env, cfg);
  }

  lemma RowsAreKnown(rows: seq<ClientId>, orders: Orders)
    requires OldestFirst(rows, orders)
    ensures forall i :: 0 <= i < |rows| ==> rows[i] in orders.Keys
  {}

  lemma BatchIsKnown(ps: Proposals, last: nat, limit: nat)
    ensures var batch := PendingBatch(ps, last, limit);
            forall i :: 0 <= i < |batch| ==> batch[i] in ps.Keys
  {
    var all := PendingUpTo(ps, last);
    var batch := PendingBatch(ps, last, limit);
    assert forall i :: 0 <= i < |batch| ==> batch[i] == all[i] && all[i] in all;
  }

  lemma {:induction false} DistinctCount<T>(s: seq<T>)
    requires Distinct(s)
    ensures |set x | x in s| == |s|
  {
    if s != [] {
      var front, last := s[..|s| - 1], s[|s| - 1];
      DistinctCount(front);
      assert last !in front;
      assert (set x | x in s) == (set x | x in front) + {last};
    }
  }

  /** The store's limited read is such a page. */
  lemma PageIsFull(rows: seq<ClientId>, orders: Orders)
    requires forall id :: id in rows ==> id in InFlight(orders)
    requires OldestFirst(rows, orders) && |rows| <= POLL_LIMIT
    requires |rows| < POLL_LIMIT ==> forall id :: id in InFlight(orders) ==> id in rows
    requires forall id, other :: id in rows && other in InFlight(orders) && other !in rows ==>
               orders[id].seqNo < orders[other].seqNo
    ensures Page(rows, orders)
  {
    DistinctCount(rows);
  }
}
