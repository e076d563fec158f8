/** The strategist agent over its store: choosing a candidate and writing what came of it. */
module Strategist {
  import opened Models
  import opened Store
  import opened ProposalPacing

  function CountOf(counts: map<string, nat>, symbol: string): nat {
    if symbol in counts then counts[symbol] else 0
  }

  /** The first `n` listed rows that use up the cap of `symbol`. */
  ghost function AttemptsAmong(ps: Proposals, ids: seq<nat>, n: nat, symbol: Option<string>): set<nat>
    requires n <= |ids|
  {
    set k | k in ids[..n] && k in ps && Actionable(ps[k].status) && About(ps[k], symbol)
  }

  lemma OneMoreAttempt(ps: Proposals, ids: seq<nat>, n: nat, symbol: Option<string>)
    requires n < |ids| && ids[n] in ps && forall i, j :: 0 <= i < j < |ids| ==> ids[i] != ids[j]
    ensures var hit := Actionable(ps[ids[n]].status) && About(ps[ids[n]], symbol);
            |AttemptsAmong(ps, ids, n + 1, symbol)| == |AttemptsAmong(ps, ids, n, symbol)| + (if hit then 1 else 0)
  {
    var before, after := AttemptsAmong(ps, ids, n, symbol), AttemptsAmong(ps, ids, n + 1, symbol);
    assert ids[..n + 1] == ids[..n] + [ids[n]];
    assert ids[n] !in ids[..n];
    if Actionable(ps[ids[n]].status) && About(ps[ids[n]], symbol) {
      assert after == before + {ids[n]};
    } else {
      assert after == before;
    }
  }

  ghost predicate Lists(ids: seq<nat>, ps: Proposals, since: int) {
    && (forall id :: id in ids <==> id in ps && ps[id].ts >= since)
    && (forall i, j :: 0 <= i < j < |ids| ==> ids[i] != ids[j])
  }

  lemma OneMoreEach(ps: Proposals, ids: seq<nat>, n: nat)
    requires n < |ids| && ids[n] in ps && forall i, j :: 0 <= i < j < |ids| ==> ids[i] != ids[j]
    ensures forall symbol ::
              (&& |AttemptsAmong(ps, ids, n + 1, Some(symbol))|
                  == |AttemptsAmong(ps, ids, n, Some(symbol))|
                     + (if Actionable(ps[ids[n]].status) && ps[ids[n]].underlying == symbol then 1 else 0))
  {
    hide AttemptsAmong, Actionable;
    forall symbol
      ensures |AttemptsAmong(ps, ids, n + 1, Some(symbol))|
           == |AttemptsAmong(ps, ids, n, Some(symbol))|
              + (if Actionable(ps[ids[n]].status) && ps[ids[n]].underlying == symbol then 1 else 0)
    {
      OneMoreAttempt(ps, ids, n, Some(symbol));
    }
  }

  lemma NoneYet(ps: Proposals, ids: seq<nat>)
    ensures forall symbol :: |AttemptsAmong(ps, ids, 0, symbol)| == 0
  {
    forall symbol ensures AttemptsAmong(ps, ids, 0, symbol) == {} { }
  }

  lemma AllAttempts(ps: Proposals, ids: seq<nat>, since: int, symbol: Option<string>)
    requires Lists(ids, ps, since)
    ensures AttemptsAmong(ps, ids, |ids|, symbol) == Attempts(ps, since, symbol)
  {
    assert ids[..|ids|] == ids;
  }

  /** What the model, the evidence cache and the decision table will say about the chosen symbol. */
  datatype Read = NoEvidence | Unusable | HoldIt | TradeIt

  /** A trade is left pending to open, a hold is recorded as one, an unusable answer as a failed read. */
  predicate AsRead(p: Proposal, read: Read) {
    match read
    case TradeIt => p.status == Pending && p.action == Open
    case HoldIt => p.status == NoAction && p.action == Hold
    case Unusable => p.status == LlmFailed && p.action == Unparseable
    case NoEvidence => false
  }

  /** The earliest listed candidate that may be proposed on. */
  ghost predicate IsFirst(symbol: string, candidates: seq<string>, ps: Proposals, now: int, limits: Limits,
                          blocked: set<string>) {
    exists i :: 0 <= i < |candidates| && candidates[i] == symbol && MayPropose(ps, now, limits, blocked, symbol)
      && forall j :: 0 <= j < i ==> !MayPropose(ps, now, limits, blocked, candidates[j])
  }

  class StrategistAgent {
    const store: Store
    const limits: Limits
    ghost var mine: set<nat>

    ghost predicate Valid()
      reads this, store
    {
      store.Valid() && mine <= store.proposals.Keys
    }

    ghost function Snapshot(clock: int): Desk
      reads this, store
    {
      Desk(store.proposals, store.proposalSeq, clock, mine, Idle)
    }

    constructor (store: Store, limits: Limits)
      requires store.Valid()
      ensures Valid() && this.store == store && this.limits == limits && mine == {}
    {
      this.store, this.limits := store, limits;
      mine := {};
    }

    /** How many recent rows use up the daily cap, and how many use up each symbol's. */
    method CountRecent(recent: seq<nat>, cutoff: int) returns (total: nat, perSymbol: map<string, nat>,
                       resting: set<string>)
      requires forall id :: id in recent ==> id in store.proposals
      requires forall i, j :: 0 <= i < j < |recent| ==> recent[i] != recent[j]
      ensures total == |AttemptsAmong(store.proposals, recent, |recent|, None)|
      ensures forall symbol :: CountOf(perSymbol, symbol) == |AttemptsAmong(store.proposals, recent, |recent|, Some(symbol))|
      ensures forall symbol :: symbol in resting <==>
                exists id :: id in recent && store.proposals[id].ts >= cutoff && store.proposals[id].underlying == symbol
    {
      hide AttemptsAmong, Actionable;
      total, perSymbol, resting := 0, map[], {};
      ghost var ps := store.proposals;
      NoneYet(ps, recent);
      for i := 0 to |recent|
        invariant total == |AttemptsAmong(ps, recent, i, None)|
        invariant forall symbol :: CountOf(perSymbol, symbol) == |AttemptsAmong(ps, recent, i, Some(symbol))|
        invariant forall symbol :: symbol in resting <==>
                    exists k :: 0 <= k < i && ps[recent[k]].ts >= cutoff && ps[recent[k]].underlying == symbol
      {
        var row := store.proposals[recent[i]];
        OneMoreAttempt(ps, recent, i, None);
        OneMoreEach(ps, recent, i);
        if Actionable(row.status) {
          total := total + 1;
          perSymbol := perSymbol[row.underlying := CountOf(perSymbol, row.underlying) + 1];
        }
        if row.ts >= cutoff { resting := resting + {row.underlying}; }
      }
    }

    /** The day's attempts in all and per symbol, and the symbols still resting. */
    method TallyDay(now: int) returns (total: nat, perSymbol: map<string, nat>, resting: set<string>)
      requires Valid()
      ensures total == |Attempts(store.proposals, now - DAY, None)|
      ensures forall symbol :: CountOf(perSymbol, symbol) == |Attempts(store.proposals, now - DAY, Some(symbol))|
      ensures forall symbol :: symbol in resting <==> Resting(store.proposals, now, limits, symbol)
    {
      var recent := store.ProposalsSince(now - DAY);
      total, perSymbol, resting := CountRecent(recent, now - limits.cooldown);
      ghost var ps := store.proposals;
      forall symbol ensures AttemptsAmong(ps, recent, |recent|, symbol) == Attempts(ps, now - DAY, symbol) {
        AllAttempts(ps, recent, now - DAY, symbol);
      }
      hide Attempts, AttemptsAmong;
    }

    /** The first listed candidate every pre-filter lets through; `capped` when the day is full. */
    method PickCandidate(now: int, candidates: seq<string>, blocked: set<string>) returns (pick: Option<string>,
                         capped: bool)
      requires Valid()
      ensures capped <==> candidates != [] && DayIsFull(store.proposals, now, limits)
      ensures pick.None? <==>
                capped || forall i :: 0 <= i < |candidates| ==> !MayPropose(store.proposals, now, limits, blocked, candidates[i])
      ensures pick.Some? ==>
                && !DayIsFull(store.proposals, now, limits)
                && MayPropose(store.proposals, now, limits, blocked, pick.value)
                && exists i :: 0 <= i < |candidates| && candidates[i] == pick.value
                     && forall j :: 0 <= j < i ==> !MayPropose(store.proposals, now, limits, blocked, candidates[j])
    {
      pick, capped := None, false;
      if candidates == [] { return; }
      var active := store.ActiveProposalUnderlyings(None);
      var total, perSymbol, resting := TallyDay(now);
      ghost var ps := store.proposals;
      if total >= limits.perDay { capped := true; return; }
      hide Attempts, Resting, DayIsFull, ActiveUnderlyings;
      for i := 0 to |candidates|
        invariant forall j :: 0 <= j < i ==> !MayPropose(ps, now, limits, blocked, candidates[j])
      {
        var symbol := candidates[i];
        if symbol != "" && symbol !in blocked && symbol !in active
           && symbol !in resting && CountOf(perSymbol, symbol) < limits.perSymbol {
          pick := Some(symbol);
          return;
        }
      }
    }

    /**
     * One pass with nobody else writing. What it leaves in the store is what a run of the
     * paced desk leaves, and it writes a row exactly when some candidate may be proposed on.
     */
    method Pass(now: int, later: int, candidates: seq<string>, blocked: set<string>,
                read: Read) returns (wrote: Option<nat>)
      requires Valid() && now <= later
      modifies this, store`proposals, store`proposalSeq
      ensures Valid()
      ensures exists es :: Run(old(Snapshot(now)), es, limits) == Some(Snapshot(later))
      ensures wrote.Some? <==>
                && !read.NoEvidence?
                && !DayIsFull(old(store.proposals), now, limits)
                && exists i :: 0 <= i < |candidates| && MayPropose(old(store.proposals), now, limits, blocked, candidates[i])
      ensures wrote.None? ==> store.proposals == old(store.proposals) && mine == old(mine)
      ensures wrote.Some? ==>
                var id := wrote.value;
                && id == old(store.proposalSeq) + 1 && mine == old(mine) + {id}
                && id in store.proposals && store.proposals == old(store.proposals)[id := store.proposals[id]]
                && MayPropose(old(store.proposals), now, limits, blocked, store.proposals[id].underlying)
                && store.proposals[id].ts == later && store.proposals[id].status == Outcome(read)
                && AsRead(store.proposals[id], read)
                && IsFirst(store.proposals[id].underlying, candidates, old(store.proposals), now, limits, blocked)
    {
      hide MayPropose, DayIsFull;
      wrote := None;
      ghost var start := Snapshot(now);
      var pick, capped := PickCandidate(now, candidates, blocked);
      if pick.None? || read.NoEvidence? {
        LookGivenUp(start, later, limits);
        return;
      }
      var id := store.SaveProposal(later, pick.value, ActionFor(Outcome(read)), Outcome(read));
      mine := mine + {id};
      wrote := Some(id);
      StillMayPropose(start.rows, now, limits, blocked, pick.value);
      LookWritten(start, later, limits, pick.value, Outcome(read));
    }
  }

  function Outcome(read: Read): Status
    requires !read.NoEvidence?
  {
    if read.TradeIt? then Pending else if read.HoldIt? then NoAction else LlmFailed
  }

  lemma StillMayPropose(ps: Proposals, now: int, limits: Limits, blocked: set<string>, symbol: string)
    requires MayPropose(ps, now, limits, blocked, symbol)
    ensures MayPropose(ps, now, limits, {}, symbol)
  {}

  lemma LookGivenUp(d: Desk, later: int, limits: Limits)
    requires d.phase.Idle? && later >= d.clock
    ensures exists es :: Run(d, es, limits) == Some(d.(clock := later))
  {
    assert [Advance(later)][1..] == [];
    RunStep(d, [Advance(later)], limits);
    assert Run(d, [Advance(later)], limits) == Some(d.(clock := later));
  }

  lemma {:induction false} LookWritten(d: Desk, later: int, limits: Limits, symbol: string, outcome: Status)
    requires d.phase.Idle? && later >= d.clock && outcome in {Pending, NoAction, LlmFailed}
    requires !DayIsFull(d.rows, d.clock, limits) && MayPropose(d.rows, d.clock, limits, {}, symbol)
    ensures var row := Proposal(later, symbol, ActionFor(outcome), outcome);
            exists es :: Run(d, es, limits) ==
              Some(Desk(d.rows[d.last + 1 := row], d.last + 1, later, d.mine + {d.last + 1}, Idle))
  {
    hide DayIsFull, MayPropose;
    var es := [Begin, Choose(symbol), Advance(later), Write(outcome)];
    var d1 := d.(phase := Looking(d.clock));
    var d2 := d.(phase := Chosen(d.clock, symbol));
    var d3 := d2.(clock := later);
    RunStep(d, es, limits);
    RunStep(d1, es[1..], limits);
    RunStep(d2, es[2..], limits);
    RunStep(d3, es[3..], limits);
    assert es[1..][1..] == es[2..] && es[2..][1..] == es[3..] && es[3..][1..] == [];
    assert Run(d, es, limits).Some?;
  }
}
