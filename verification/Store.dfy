/** The in-memory store: proposals and order rows, updated in place. */
module Store {
  import opened Models

  datatype Action = Open | Close | Hold | Unparseable

  datatype Status =
    | Pending | DryRunApproved | Submitted | CloseSubmitted
    | Rejected | Failed | Ambiguous | Held | CloseMissed
    | BrokerRejected | NoAction | LlmFailed

  datatype Proposal = Proposal(ts: int, underlying: string, action: Action, status: Status)

  /** "om-<id>" opens a position, "omc-<id>" closes one. */
  datatype ClientId = Om(proposal: nat) | Omc(proposal: nat)

  datatype OrderRow = OrderRow(seqNo: nat, proposalId: nat, underlying: string, status: string)

  type Proposals = map<nat, Proposal>
  type Orders = map<ClientId, OrderRow>

  // ---- Order states -------------------------------------------------------

  function LowerChar(c: char): char { if 'A' <= c <= 'Z' then (c as int + 32) as char else c }

  function Lower(s: string): string { seq(|s|, i requires 0 <= i < |s| => LowerChar(s[i])) }

  predicate IsSpace(c: char) { c == ' ' || c == '\t' || c == '\n' || c == '\r' }

  function Strip(s: string): string {
    if s != [] && IsSpace(s[0]) then Strip(s[1..])
    else if s != [] && IsSpace(s[|s| - 1]) then Strip(s[..|s| - 1])
    else s
  }

  const TERMINAL_UNFILLED: set<string> :=
    {"canceled", "cancelled", "expired", "rejected", "replaced", "done_for_day"}

  /** The broker is finished with the order, or it never reached the broker. */
  predicate Settled(status: string) { Lower(status) in TERMINAL_UNFILLED + {"filled", "failed"} }

  /** The broker is finished with an order that opened nothing. */
  predicate TerminalUnfilled(status: string, filledQty: Option<real>) {
    !(filledQty.Some? && filledQty.value > 0.0) && Lower(Strip(status)) in TERMINAL_UNFILLED
  }

  /** The statuses the broker is finished with, in any capitals, and the one for an order that never reached it. */
  lemma SettledWords(status: string)
    ensures Settled(status)
       <==> Lower(status) in {"canceled", "cancelled", "expired", "rejected", "replaced", "done_for_day", "filled", "failed"}
    ensures forall other :: Lower(other) == Lower(status) ==> Settled(other) == Settled(status)
  {}

  /** An order opened nothing when its status says so and no quantity was filled. */
  lemma {:induction false} OpenedNothing(status: string, filledQty: Option<real>)
    ensures TerminalUnfilled(status, filledQty)
       <==> && Lower(Strip(status)) in {"canceled", "cancelled", "expired", "rejected", "replaced", "done_for_day"}
            && (filledQty.None? || filledQty.value <= 0.0)
  {}

  function InFlight(orders: Orders): set<ClientId> {
    set id | id in orders && !Settled(orders[id].status)
  }

  /** Distinct known orders in the order they were first written. */
  predicate OldestFirst(rows: seq<ClientId>, orders: Orders) {
    && (forall i :: 0 <= i < |rows| ==> rows[i] in orders)
    && (forall i, j :: 0 <= i < j < |rows| ==> orders[rows[i]].seqNo < orders[rows[j]].seqNo)
  }

  // ---- Queries ------------------------------------------------------------

  /** Statuses that hold a slot a broker position cannot show yet. */
  predicate IsActive(s: Status) { s == Pending || s == DryRunApproved || s == Submitted }

  function ActiveUnderlyings(ps: Proposals, exclude: Option<nat>): set<string> {
    set id | id in ps && IsActive(ps[id].status) && Some(id) != exclude :: ps[id].underlying
  }

  /** Ids of pending rows up to `n`, oldest first. */
  function PendingUpTo(ps: Proposals, n: nat): (r: seq<nat>)
    ensures forall id :: id in r <==> id <= n && id in ps && ps[id].status == Pending
    ensures forall i, j :: 0 <= i < j < |r| ==> r[i] < r[j]
  {
    var tail := if n in ps && ps[n].status == Pending then [n] else [];
    if n == 0 then tail
    else
      var older := PendingUpTo(ps, n - 1);
      assert forall i :: 0 <= i < |older| ==> older[i] in older;
      older + tail
  }

  function PendingBatch(ps: Proposals, last: nat, limit: nat): seq<nat> {
    var all := PendingUpTo(ps, last);
    if |all| <= limit then all else all[..limit]
  }

  /** Descending by time; rows written at the same moment stay in the order they were written. */
  ghost predicate NewestFirst(ids: seq<nat>, ps: Proposals) {
    && (forall i :: 0 <= i < |ids| ==> ids[i] in ps)
    && forall i, j :: 0 <= i < j < |ids| ==>
         ps[ids[i]].ts > ps[ids[j]].ts || (ps[ids[i]].ts == ps[ids[j]].ts && ids[i] < ids[j])
  }

  /** A stable sort's step: before every older row, after every row as young. */
  function InsertByAge(ids: seq<nat>, n: nat, ps: Proposals): seq<nat>
    requires n in ps && forall i :: 0 <= i < |ids| ==> ids[i] in ps
  {
    if ids == [] || ps[ids[|ids| - 1]].ts >= ps[n].ts then ids + [n]
    else InsertByAge(ids[..|ids| - 1], n, ps) + [ids[|ids| - 1]]
  }

  lemma {:induction false} InsertKeepsOrder(ids: seq<nat>, n: nat, ps: Proposals)
    requires NewestFirst(ids, ps) && n in ps && forall i :: 0 <= i < |ids| ==> ids[i] < n
    ensures NewestFirst(InsertByAge(ids, n, ps), ps)
    ensures forall id :: id in InsertByAge(ids, n, ps) <==> id == n || id in ids
  {
    if ids == [] || ps[ids[|ids| - 1]].ts >= ps[n].ts {
    } else {
      var front, last := ids[..|ids| - 1], ids[|ids| - 1];
      InsertKeepsOrder(front, n, ps);
      var r := InsertByAge(front, n, ps);
      assert ids == front + [last];
      forall i | 0 <= i < |r|
        ensures ps[r[i]].ts > ps[last].ts || (ps[r[i]].ts == ps[last].ts && r[i] < last)
      {
        assert r[i] in r;
        if r[i] != n { var k :| 0 <= k < |front| && front[k] == r[i]; assert ids[k] == r[i]; }
      }
    }
  }

  // ---- Updates, on values -------------------------------------------------

  function WithStatus(ps: Proposals, id: nat, status: Status): Proposals {
    if id in ps then ps[id := ps[id].(status := status)] else ps
  }

  /** The first write for a client order id wins; a repeat changes nothing. */
  function WithOrder(orders: Orders, id: ClientId, row: OrderRow): Orders {
    if id in orders then orders else orders[id := row]
  }

  function WithOrderStatus(orders: Orders, id: ClientId, status: string): Orders {
    if id in orders then orders[id := orders[id].(status := status)] else orders
  }

  // ---- The object ---------------------------------------------------------

  class Store {
    var proposals: Proposals
    var proposalSeq: nat
    var orders: Orders
    var orderSeq: nat

    /** Row ids come from the two counters, so no id is ever reused. */
    ghost predicate Valid()
      reads this
    {
      && (forall id :: id in proposals ==> 1 <= id <= proposalSeq)
      && (forall id :: id in orders ==> 1 <= orders[id].seqNo <= orderSeq)
      && (forall a, b :: a in orders && b in orders && orders[a].seqNo == orders[b].seqNo ==> a == b)
    }

    constructor ()
      ensures Valid() && proposals == map[] && orders == map[] && proposalSeq == 0 && orderSeq == 0
    {
      proposals, proposalSeq, orders, orderSeq := map[], 0, map[], 0;
    }

    method SaveProposal(ts: int, underlying: string, action: Action, status: Status) returns (id: nat)
      requires Valid()
      modifies this`proposals, this`proposalSeq
      ensures Valid()
      ensures id == old(proposalSeq) + 1 && proposalSeq == id && id !in old(proposals)
      ensures proposals == old(proposals)[id := Proposal(ts, underlying, action, status)]
    {
      proposalSeq := proposalSeq + 1;
      id := proposalSeq;
      proposals := proposals[id := Proposal(ts, underlying, action, status)];
    }

    method UpdateProposalStatus(id: nat, status: Status)
      requires Valid()
      modifies this`proposals
      ensures Valid() && proposals == WithStatus(old(proposals), id, status)
    {
      if id in proposals {
        proposals := proposals[id := proposals[id].(status := status)];
      }
    }

    /** A known client order id is left exactly as it was, counter included. */
    method RecordOrder(proposalId: nat, id: ClientId, underlying: string, status: string)
      requires Valid()
      modifies this`orders, this`orderSeq
      ensures Valid()
      ensures orders == WithOrder(old(orders), id, OrderRow(old(orderSeq) + 1, proposalId, underlying, status))
      ensures orderSeq == old(orderSeq) + (if id in old(orders) then 0 else 1)
    {
      if id in orders { return; }
      orderSeq := orderSeq + 1;
      orders := orders[id := OrderRow(orderSeq, proposalId, underlying, status)];
    }

    method UpdateOrderStatus(id: ClientId, status: string)
      requires Valid()
      modifies this`orders
      ensures Valid() && orders == WithOrderStatus(old(orders), id, status)
    {
      if id in orders {
        orders := orders[id := orders[id].(status := status)];
      }
    }

    method PendingProposals(limit: nat) returns (batch: seq<nat>)
      requires Valid()
      ensures batch == PendingBatch(proposals, proposalSeq, limit)
    {
      batch := PendingBatch(proposals, proposalSeq, limit);
    }

    /** Ids of the rows written at or after `since`, newest first. */
    method ProposalsSince(since: int) returns (ids: seq<nat>)
      requires Valid()
      ensures forall id :: id in ids <==> id in proposals && proposals[id].ts >= since
      ensures NewestFirst(ids, proposals)
      ensures forall i, j :: 0 <= i < j < |ids| ==> ids[i] != ids[j]
    {
      ids := [];
      for n := 1 to proposalSeq + 1
        invariant forall id :: id in ids <==> id < n && id in proposals && proposals[id].ts >= since
        invariant NewestFirst(ids, proposals)
      {
        if n in proposals && proposals[n].ts >= since {
          InsertKeepsOrder(ids, n, proposals);
          ids := InsertByAge(ids, n, proposals);
        }
      }
      assert forall i, j :: 0 <= i < j < |ids| ==> ids[i] != ids[j];
    }

    method ActiveProposalUnderlyings(exclude: Option<nat>) returns (us: set<string>)
      ensures us == ActiveUnderlyings(proposals, exclude)
    {
      us := set id | id in proposals && IsActive(proposals[id].status) && Some(id) != exclude :: proposals[id].underlying;
    }

    /** The oldest `limit` rows still in flight, by the order they were first written. */
    method OrdersInFlight(limit: nat) returns (rows: seq<ClientId>)
      requires Valid()
      ensures forall id :: id in rows ==> id in InFlight(orders)
      ensures OldestFirst(rows, orders)
      ensures |rows| <= limit && (|rows| < limit ==> forall id :: id in InFlight(orders) ==> id in rows)
      ensures forall id, other :: id in rows && other in InFlight(orders) && other !in rows ==>
                orders[id].seqNo < orders[other].seqNo
    {
      rows := [];
      var n := 1;
      while n <= orderSeq && |rows| < limit
        invariant 1 <= n <= orderSeq + 1 && |rows| <= limit
        invariant forall id :: id in rows <==> id in InFlight(orders) && orders[id].seqNo < n
        invariant OldestFirst(rows, orders)
      {
        if exists id :: id in orders && orders[id].seqNo == n && !Settled(orders[id].status) {
          var id :| id in orders && orders[id].seqNo == n && !Settled(orders[id].status);
          assert forall i :: 0 <= i < |rows| ==> rows[i] in rows;
          rows := rows + [id];
        }
        n := n + 1;
      }
    }
  }
}
