/**
 * The strategist's rate limits over whole runs: looks at candidates, writes of proposals,
 * a clock that never goes back, and other agents writing and updating rows in between.
 */
module ProposalPacing {
  import opened Models
  import opened Store
  import opened Collections

  /** A rolling day, in microseconds. */
  const DAY: int := 86_400_000_000

  datatype Limits = Limits(cooldown: int, perDay: nat, perSymbol: nat) {
    predicate Valid() { cooldown > 0 && perDay >= 1 && perSymbol >= 1 }

    /** How long a look at a symbol keeps the next one away: the look-back never exceeds a day. */
    function Rest(): int { if cooldown < DAY then cooldown else DAY }
  }

  // ---- The pre-filters ----------------------------------------------------

  predicate Actionable(s: Status) { s != NoAction && s != LlmFailed }

  predicate About(p: Proposal, symbol: Option<string>) { symbol.None? || p.underlying == symbol.value }

  /** Rows that use up a cap: written at or after `since`, not a hold and not a failed read. */
  function Attempts(ps: Proposals, since: int, symbol: Option<string>): set<nat> {
    set id | id in ps && ps[id].ts >= since && Actionable(ps[id].status) && About(ps[id], symbol)
  }

  predicate Resting(ps: Proposals, now: int, limits: Limits, symbol: string) {
    exists id :: id in ps && ps[id].ts >= now - DAY && ps[id].ts >= now - limits.cooldown && ps[id].underlying == symbol
  }

  predicate DayIsFull(ps: Proposals, now: int, limits: Limits) {
    |Attempts(ps, now - DAY, None)| >= limits.perDay
  }

  predicate MayPropose(ps: Proposals, now: int, limits: Limits, blocked: set<string>, symbol: string) {
    && symbol != "" && symbol !in blocked && symbol !in ActiveUnderlyings(ps, None)
    && !Resting(ps, now, limits, symbol)
    && |Attempts(ps, now - DAY, Some(symbol))| < limits.perSymbol
  }

  // ---- The desk as a state machine ----------------------------------------

  datatype Phase = Idle | Looking(now: int) | Chosen(now: int, symbol: string)

  /** `mine` are the rows the strategist wrote. */
  datatype Desk = Desk(rows: Proposals, last: nat, clock: int, mine: set<nat>, phase: Phase)

  datatype Event =
    | Advance(to: int)
    | Begin
    | Choose(symbol: string)
    | GiveUp
    | Write(outcome: Status)
    | Insert(underlying: string, action: Action, status: Status)
    | Change(id: nat, status: Status)

  function ActionFor(outcome: Status): Action {
    if outcome == Pending then Open else if outcome == NoAction then Hold else Unparseable
  }

  function AddRow(d: Desk, p: Proposal): Desk { d.(rows := d.rows[d.last + 1 := p], last := d.last + 1) }

  function Step(d: Desk, e: Event, limits: Limits): Option<Desk> {
    match e
    case Advance(to) => if to >= d.clock then Some(d.(clock := to)) else None
    case Begin => if d.phase.Idle? then Some(d.(phase := Looking(d.clock))) else None
    case Choose(symbol) =>
      if d.phase.Looking? && !DayIsFull(d.rows, d.phase.now, limits) && MayPropose(d.rows, d.phase.now, limits, {}, symbol)
      then Some(d.(phase := Chosen(d.phase.now, symbol))) else None
    case GiveUp => Some(d.(phase := Idle))
    case Write(outcome) =>
      if d.phase.Chosen? && outcome in {Pending, NoAction, LlmFailed}
      then
        var row := Proposal(d.clock, d.phase.symbol, ActionFor(outcome), outcome);
        Some(AddRow(d, row).(mine := d.mine + {d.last + 1}, phase := Idle))
      else None
    case Insert(underlying, action, status) => Some(AddRow(d, Proposal(d.clock, underlying, action, status)))
    case Change(id, status) =>
      if id in d.rows && Actionable(d.rows[id].status) && Actionable(status)
      then Some(d.(rows := WithStatus(d.rows, id, status))) else None
  }

  function Run(d: Desk, es: seq<Event>, limits: Limits): Option<Desk>
    decreases |es|
  {
    if es == [] then Some(d)
    else
      var next := Step(d, es[0], limits);
      if next.None? then None else Run(next.value, es[1..], limits)
  }

  // ---- What every step keeps ----------------------------------------------

  /** The strategist's own attempts since a moment. */
  function Mine(d: Desk, since: int, symbol: Option<string>): set<nat> {
    Attempts(d.rows, since, symbol) * d.mine
  }

  /** The strategist's own attempts in the day that starts at `from`, both ends included. */
  function InWindow(d: Desk, from: int, symbol: Option<string>): set<nat> {
    set id | id in Mine(d, from, symbol) && d.rows[id].ts <= from + DAY
  }

  function Cap(limits: Limits, symbol: Option<string>): nat {
    if symbol.None? then limits.perDay else limits.perSymbol
  }

  ghost predicate Sound(d: Desk) {
    && (forall id :: id in d.rows ==> 1 <= id <= d.last && d.rows[id].ts <= d.clock)
    && d.mine <= d.rows.Keys
    && (!d.phase.Idle? ==> d.phase.now <= d.clock)
  }

  ghost predicate Capped(d: Desk, limits: Limits) {
    forall from, symbol :: |InWindow(d, from, symbol)| <= Cap(limits, symbol)
  }

  /** Successive looks at one symbol, hold or failed read included, are more than `gap` apart. */
  ghost predicate Spaced(d: Desk, gap: int) {
    forall a, b | a in d.mine && b in d.mine && a in d.rows && b in d.rows && a < b ::
      d.rows[a].underlying == d.rows[b].underlying ==> d.rows[a].ts + gap < d.rows[b].ts
  }

  /** A chosen symbol still has room under both caps and has rested, whatever others wrote since. */
  ghost predicate Room(d: Desk, limits: Limits) {
    d.phase.Chosen? ==>
      && |Mine(d, d.phase.now - DAY, None)| < limits.perDay
      && |Mine(d, d.phase.now - DAY, Some(d.phase.symbol))| < limits.perSymbol
      && forall id :: id in d.mine && id in d.rows && d.rows[id].underlying == d.phase.symbol ==>
           d.rows[id].ts + limits.Rest() < d.phase.now
  }

  ghost predicate Paced(d: Desk, limits: Limits) {
    Sound(d) && Capped(d, limits) && Spaced(d, limits.Rest()) && Room(d, limits)
  }

  lemma SoundKept(d: Desk, e: Event, limits: Limits)
    requires Sound(d) && Step(d, e, limits).Some?
    ensures Sound(Step(d, e, limits).value)
  {
    hide DayIsFull, MayPropose;
  }

  /** Events other than the strategist's own write leave its attempts as they were. */
  lemma OthersLeaveMine(d: Desk, e: Event, limits: Limits, since: int, symbol: Option<string>)
    requires Sound(d) && Step(d, e, limits).Some? && !e.Write?
    ensures var v := Step(d, e, limits).value;
            v.mine == d.mine && Mine(v, since, symbol) == Mine(d, since, symbol)
    ensures InWindow(Step(d, e, limits).value, since, symbol) == InWindow(d, since, symbol)
    ensures forall id :: id in d.mine ==>
              var v := Step(d, e, limits).value;
              id in v.rows && v.rows[id].ts == d.rows[id].ts && v.rows[id].underlying == d.rows[id].underlying
  {
    hide DayIsFull, MayPropose;
    var v := Step(d, e, limits).value;
    forall id | id in d.mine
      ensures id in v.rows && v.rows[id].ts == d.rows[id].ts && v.rows[id].underlying == d.rows[id].underlying
      ensures Actionable(v.rows[id].status) == Actionable(d.rows[id].status)
    {
    }
    assert Mine(v, since, symbol) == Mine(d, since, symbol);
  }

  lemma MineAmongAll(d: Desk, since: int, symbol: Option<string>)
    ensures |Mine(d, since, symbol)| <= |Attempts(d.rows, since, symbol)|
  {
    SmallerSubset(Mine(d, since, symbol), Attempts(d.rows, since, symbol));
  }

  lemma RestedLongEnough(d: Desk, now: int, limits: Limits, symbol: string, id: nat)
    requires !Resting(d.rows, now, limits, symbol) && id in d.rows && d.rows[id].underlying == symbol
    ensures d.rows[id].ts + limits.Rest() < now
  {
  }

  lemma WhatWasChosen(d: Desk, symbol: string, limits: Limits)
    requires Step(d, Choose(symbol), limits).Some?
    ensures d.phase.Looking? && Step(d, Choose(symbol), limits).value == d.(phase := Chosen(d.phase.now, symbol))
    ensures |Attempts(d.rows, d.phase.now - DAY, None)| < limits.perDay
    ensures |Attempts(d.rows, d.phase.now - DAY, Some(symbol))| < limits.perSymbol
    ensures !Resting(d.rows, d.phase.now, limits, symbol)
  {
    hide Attempts, Resting, ActiveUnderlyings;
  }

  lemma ChoosingLeavesRoom(d: Desk, symbol: string, limits: Limits)
    requires Sound(d) && Step(d, Choose(symbol), limits).Some?
    ensures Room(Step(d, Choose(symbol), limits).value, limits)
  {
    hide Step, Attempts, Resting, Mine, Sound;
    WhatWasChosen(d, symbol, limits);
    var v := Step(d, Choose(symbol), limits).value;
    var since := d.phase.now - DAY;
    MineAmongAll(v, since, None);
    MineAmongAll(v, since, Some(symbol));
    forall id | id in v.mine && id in v.rows && v.rows[id].underlying == symbol
      ensures v.rows[id].ts + limits.Rest() < d.phase.now
    {
      RestedLongEnough(d, d.phase.now, limits, symbol, id);
    }
  }

  /** A written row adds itself to the windows it falls in and changes nothing else. */
  lemma WritingAddsOne(d: Desk, outcome: Status, limits: Limits, from: int, symbol: Option<string>)
    requires Sound(d) && Step(d, Write(outcome), limits).Some?
    ensures var after := InWindow(Step(d, Write(outcome), limits).value, from, symbol);
            || after == InWindow(d, from, symbol)
            || (&& after == InWindow(d, from, symbol) + {d.last + 1}
                && from <= d.clock <= from + DAY && About(Proposal(d.clock, d.phase.symbol, Open, Pending), symbol))
  {
    var v := Step(d, Write(outcome), limits).value;
    var id := d.last + 1;
    var before, after := InWindow(d, from, symbol), InWindow(v, from, symbol);
    assert forall k :: k in d.rows ==> v.rows[k] == d.rows[k];
    forall k | k != id ensures k in after <==> k in before { }
    if id in after { assert after == before + {id}; } else { assert after == before; }
  }

  /** A window that reaches the present holds only attempts that were counted when choosing. */
  lemma RoomInWindow(d: Desk, limits: Limits, from: int, symbol: Option<string>)
    requires Room(d, limits) && d.phase.Chosen? && d.phase.now <= d.clock <= from + DAY
    requires symbol.None? || symbol.value == d.phase.symbol
    ensures |InWindow(d, from, symbol)| < Cap(limits, symbol)
  {
    var counted := Mine(d, d.phase.now - DAY, symbol);
    assert InWindow(d, from, symbol) <= counted;
    SmallerSubset(InWindow(d, from, symbol), counted);
    hide Mine, InWindow;
    assert symbol.Some? ==> symbol == Some(d.phase.symbol);
  }

  lemma WritingKeepsCap(d: Desk, outcome: Status, limits: Limits, from: int, symbol: Option<string>)
    requires Paced(d, limits) && Step(d, Write(outcome), limits).Some?
    ensures |InWindow(Step(d, Write(outcome), limits).value, from, symbol)| <= Cap(limits, symbol)
  {
    WritingAddsOne(d, outcome, limits, from, symbol);
    assert d.phase.Chosen? && d.phase.now <= d.clock;
    hide Step, InWindow, Room;
    assert |InWindow(d, from, symbol)| <= Cap(limits, symbol);
    if d.clock <= from + DAY && (symbol.None? || symbol.value == d.phase.symbol) {
      RoomInWindow(d, limits, from, symbol);
    }
  }

  lemma WritingKeepsSpacing(d: Desk, outcome: Status, limits: Limits)
    requires Paced(d, limits) && Step(d, Write(outcome), limits).Some?
    ensures Spaced(Step(d, Write(outcome), limits).value, limits.Rest())
    ensures Room(Step(d, Write(outcome), limits).value, limits)
  {
    hide Capped, Mine;
  }

  lemma OthersKeepCaps(d: Desk, e: Event, limits: Limits)
    requires Paced(d, limits) && Step(d, e, limits).Some? && !e.Write?
    ensures Capped(Step(d, e, limits).value, limits) && Spaced(Step(d, e, limits).value, limits.Rest())
  {
    hide Step, InWindow, Mine, Room;
    var v := Step(d, e, limits).value;
    forall from, symbol ensures |InWindow(v, from, symbol)| <= Cap(limits, symbol) {
      OthersLeaveMine(d, e, limits, from, symbol);
    }
    OthersLeaveMine(d, e, limits, 0, None);
  }

  lemma StepKeepsPaced(d: Desk, e: Event, limits: Limits)
    requires Paced(d, limits) && Step(d, e, limits).Some?
    ensures Paced(Step(d, e, limits).value, limits)
  {
    hide Step, InWindow, Sound, Room, Spaced;
    SoundKept(d, e, limits);
    if e.Write? {
      var v := Step(d, e, limits).value;
      forall from, symbol ensures |InWindow(v, from, symbol)| <= Cap(limits, symbol) {
        WritingKeepsCap(d, e.outcome, limits, from, symbol);
      }
      WritingKeepsSpacing(d, e.outcome, limits);
    } else {
      OthersKeepCaps(d, e, limits);
      RoomKept(d, e, limits);
    }
  }

  lemma ChoiceStands(d: Desk, e: Event, limits: Limits)
    requires Step(d, e, limits).Some? && !e.Write? && !e.Choose? && Step(d, e, limits).value.phase.Chosen?
    ensures Step(d, e, limits).value.phase == d.phase
  {
  }

  lemma RoomCarries(d: Desk, v: Desk, limits: Limits)
    requires Room(d, limits) && d.phase.Chosen? && v.phase == d.phase && v.mine == d.mine
    requires Mine(v, d.phase.now - DAY, None) == Mine(d, d.phase.now - DAY, None)
    requires Mine(v, d.phase.now - DAY, Some(d.phase.symbol)) == Mine(d, d.phase.now - DAY, Some(d.phase.symbol))
    requires forall id :: id in d.mine ==>
               id in d.rows && id in v.rows && v.rows[id].ts == d.rows[id].ts && v.rows[id].underlying == d.rows[id].underlying
    ensures Room(v, limits)
  {
    hide Mine;
  }

  lemma RoomKept(d: Desk, e: Event, limits: Limits)
    requires Sound(d) && Room(d, limits) && Step(d, e, limits).Some? && !e.Write?
    ensures Room(Step(d, e, limits).value, limits)
  {
    var v := Step(d, e, limits).value;
    if e.Choose? {
      ChoosingLeavesRoom(d, e.symbol, limits);
    } else if v.phase.Chosen? {
      ChoiceStands(d, e, limits);
      hide Step, Mine, InWindow, Room;
      OthersLeaveMine(d, e, limits, d.phase.now - DAY, None);
      OthersLeaveMine(d, e, limits, d.phase.now - DAY, Some(d.phase.symbol));
      RoomCarries(d, v, limits);
    }
  }

  // ---- Whole runs ---------------------------------------------------------

  /** A store with any earlier rows, none of them the strategist's. */
  ghost predicate Fresh(d: Desk) { Sound(d) && d.mine == {} && d.phase.Idle? }

  lemma {:induction false} RunKeepsPaced(d: Desk, es: seq<Event>, limits: Limits)
    requires Paced(d, limits) && Run(d, es, limits).Some?
    ensures Paced(Run(d, es, limits).value, limits)
    decreases |es|
  {
    hide Paced, Step;
    if es != [] {
      StepKeepsPaced(d, es[0], limits);
      RunKeepsPaced(Step(d, es[0], limits).value, es[1..], limits);
    }
  }

  /**
   * In every run and every 24-hour window the strategist makes at most the daily number of
   * attempts, at most the per-symbol number on each symbol, and rests a symbol between looks.
   */
  lemma {:induction false} RunsArePaced(d: Desk, es: seq<Event>, limits: Limits, from: int, symbol: string)
    requires Fresh(d) && limits.Valid() && Run(d, es, limits).Some?
    ensures var v := Run(d, es, limits).value;
            && |InWindow(v, from, None)| <= limits.perDay
            && |InWindow(v, from, Some(symbol))| <= limits.perSymbol
            && Spaced(v, limits.Rest())
  {
    forall w, s ensures |InWindow(d, w, s)| <= Cap(limits, s) { assert InWindow(d, w, s) == {}; }
    assert Paced(d, limits);
    RunKeepsPaced(d, es, limits);
    var v := Run(d, es, limits).value;
    hide Run, InWindow, Spaced, Sound, Room;
    assert |InWindow(v, from, None)| <= Cap(limits, None);
    assert |InWindow(v, from, Some(symbol))| <= Cap(limits, Some(symbol));
  }

  // ---- One live idea per underlying ---------------------------------------

  /** A candidate may be looked at exactly when it is free, has rested, and has attempts left in the rolling day. */
  lemma MayProposeIff(ps: Proposals, now: int, limits: Limits, blocked: set<string>, symbol: string)
    ensures MayPropose(ps, now, limits, blocked, symbol) <==>
              && symbol != "" && symbol !in blocked
              && (forall id :: id in ps && ps[id].underlying == symbol ==>
                    ps[id].status !in {Pending, DryRunApproved, Submitted})
              && (forall id :: id in ps && ps[id].underlying == symbol ==> ps[id].ts < now - limits.Rest())
              && |DayOf(ps, now, {symbol})| < limits.perSymbol
  {
    assert Attempts(ps, now - DAY, Some(symbol)) == DayOf(ps, now, {symbol});
    if symbol in ActiveUnderlyings(ps, None) {
      var id :| id in ps && IsActive(ps[id].status) && ps[id].underlying == symbol;
      assert ps[id].status in {Pending, DryRunApproved, Submitted};
    }
  }

  /** The desk stops for the day exactly when its rolling day holds the daily number of attempts. */
  lemma DayIsFullIff(ps: Proposals, now: int, limits: Limits)
    ensures DayIsFull(ps, now, limits) <==> |DayOf(ps, now, Underlyings(ps))| >= limits.perDay
  {
    forall id | id in ps ensures ps[id].underlying in Underlyings(ps) { }
    assert Attempts(ps, now - DAY, None) == DayOf(ps, now, Underlyings(ps));
  }

  function Underlyings(ps: Proposals): set<string> { set id | id in ps :: ps[id].underlying }

  /** Rows about some symbols of the last day that are neither a hold nor a failed read. */
  function DayOf(ps: Proposals, now: int, symbols: set<string>): set<nat> {
    set id | id in ps && ps[id].underlying in symbols && ps[id].ts >= now - 24 * 3600 * 1_000_000
             && ps[id].status !in {NoAction, LlmFailed}
  }

  ghost predicate Busy(d: Desk, symbol: string) {
    exists id :: id in d.rows && d.rows[id].underlying == symbol && IsActive(d.rows[id].status)
  }

  /** No underlying has two active rows, nor one while it is being looked at. */
  ghost predicate OneAtATime(d: Desk) {
    && (forall a, b | a in d.rows && b in d.rows && IsActive(d.rows[a].status) && IsActive(d.rows[b].status) ::
          d.rows[a].underlying == d.rows[b].underlying ==> a == b)
    && (d.phase.Chosen? ==> !Busy(d, d.phase.symbol))
  }

  ghost predicate Claimed(d: Desk, symbol: string) {
    Busy(d, symbol) || (d.phase.Chosen? && d.phase.symbol == symbol)
  }

  /** Another agent makes a row active on an underlying that already has one or is being looked at. */
  ghost predicate Crowds(d: Desk, e: Event) {
    match e
    case Insert(underlying, _, status) => IsActive(status) && Claimed(d, underlying)
    case Change(id, status) =>
      id in d.rows && IsActive(status) && !IsActive(d.rows[id].status) && Claimed(d, d.rows[id].underlying)
    case _ => false
  }

  lemma ChoosingIsFree(d: Desk, symbol: string, limits: Limits)
    requires Step(d, Choose(symbol), limits).Some?
    ensures !Busy(d, symbol)
  {
    MayProposeIff(d.rows, d.phase.now, limits, {}, symbol);
    hide MayPropose, DayIsFull, DayOf;
  }

  lemma InsertCrowdsIff(d: Desk, e: Event, limits: Limits)
    requires Sound(d) && OneAtATime(d) && e.Insert? && Step(d, e, limits).Some?
    ensures OneAtATime(Step(d, e, limits).value) <==> !Crowds(d, e)
  {
    var v, id := Step(d, e, limits).value, d.last + 1;
    assert id !in d.rows && v.rows == d.rows[id := Proposal(d.clock, e.underlying, e.action, e.status)];
    if IsActive(e.status) && Busy(d, e.underlying) {
      var other :| other in d.rows && d.rows[other].underlying == e.underlying && IsActive(d.rows[other].status);
      assert v.rows[other] == d.rows[other] && v.rows[id].underlying == v.rows[other].underlying && id != other;
    } else if Crowds(d, e) {
      assert v.rows[id].underlying == v.phase.symbol && IsActive(v.rows[id].status);
      assert Busy(v, v.phase.symbol);
    }
  }

  lemma ChangeCrowdsIff(d: Desk, e: Event, limits: Limits)
    requires Sound(d) && OneAtATime(d) && e.Change? && Step(d, e, limits).Some?
    ensures OneAtATime(Step(d, e, limits).value) <==> !Crowds(d, e)
  {
    var v, id := Step(d, e, limits).value, e.id;
    var u := d.rows[id].underlying;
    assert v.rows.Keys == d.rows.Keys && v.rows[id].underlying == u && v.rows[id].status == e.status;
    assert forall k :: k in d.rows && k != id ==> v.rows[k] == d.rows[k];
    if Crowds(d, e) {
      if Busy(d, u) {
        var other :| other in d.rows && d.rows[other].underlying == u && IsActive(d.rows[other].status);
        assert v.rows[other] == d.rows[other] && other != id;
      } else {
        assert Busy(v, v.phase.symbol);
      }
    } else if IsActive(e.status) && !IsActive(d.rows[id].status) {
      assert !Busy(d, u);
    }
  }

  lemma OwnEventsDoNotCrowd(d: Desk, e: Event, limits: Limits)
    requires Sound(d) && OneAtATime(d) && !e.Insert? && !e.Change? && Step(d, e, limits).Some?
    ensures OneAtATime(Step(d, e, limits).value)
  {
    var v := Step(d, e, limits).value;
    if e.Choose? {
      ChoosingIsFree(d, e.symbol, limits);
      hide MayPropose, DayIsFull;
      assert v.rows == d.rows;
    } else if e.Write? {
      var id := d.last + 1;
      assert id !in d.rows && forall k :: k in d.rows ==> v.rows[k] == d.rows[k];
      assert !Busy(d, d.phase.symbol);
    } else {
      hide MayPropose, DayIsFull;
      assert v.rows == d.rows;
    }
  }

  /** A step leaves every underlying at most one active row exactly when no other agent crowds one in. */
  lemma OneAtATimeKeptIff(d: Desk, e: Event, limits: Limits)
    requires Sound(d) && OneAtATime(d) && Step(d, e, limits).Some?
    ensures OneAtATime(Step(d, e, limits).value) <==> !Crowds(d, e)
  {
    hide Step, OneAtATime;
    if e.Insert? { InsertCrowdsIff(d, e, limits); }
    else if e.Change? { ChangeCrowdsIff(d, e, limits); }
    else { OwnEventsDoNotCrowd(d, e, limits); }
  }

  ghost predicate NeverCrowded(d: Desk, es: seq<Event>, limits: Limits)
    decreases |es|
  {
    es == [] || (&& Step(d, es[0], limits).Some? && !Crowds(d, es[0])
                 && NeverCrowded(Step(d, es[0], limits).value, es[1..], limits))
  }

  ghost predicate OneAtATimeThroughout(d: Desk, es: seq<Event>, limits: Limits)
    decreases |es|
  {
    && OneAtATime(d)
    && (es == [] || (Step(d, es[0], limits).Some?
                     && OneAtATimeThroughout(Step(d, es[0], limits).value, es[1..], limits)))
  }

  /**
   * Over a whole run each underlying has at most one active row throughout, exactly when no other agent
   * ever crowds one in.
   */
  lemma {:induction false} OneAtATimeThroughoutIff(d: Desk, es: seq<Event>, limits: Limits)
    requires Sound(d) && OneAtATime(d) && Run(d, es, limits).Some?
    ensures OneAtATimeThroughout(d, es, limits) <==> NeverCrowded(d, es, limits)
    decreases |es|
  {
    hide Step, OneAtATime, Sound, Crowds;
    if es != [] {
      OneAtATimeKeptIff(d, es[0], limits);
      SoundKept(d, es[0], limits);
      var v := Step(d, es[0], limits).value;
      if OneAtATime(v) { OneAtATimeThroughoutIff(v, es[1..], limits); }
    }
  }

  // ---- A cooldown longer than the look-back -------------------------------

  function Opening(): Desk { Desk(map[], 0, 0, {}, Idle) }

  /** Two looks at one symbol, as soon after each other as the look-back lets them be. */
  function TwoLooks(symbol: string): seq<Event> {
    [Begin, Choose(symbol), Write(NoAction), Advance(DAY + 1), Begin, Choose(symbol), Write(NoAction)]
  }

  lemma {:induction false} RunStep(d: Desk, es: seq<Event>, limits: Limits)
    requires es != [] && Step(d, es[0], limits).Some?
    ensures Run(d, es, limits) == Run(Step(d, es[0], limits).value, es[1..], limits)
  {
  }

  lemma {:induction false} FirstLook(symbol: string, limits: Limits)
    requires symbol != "" && limits.Valid()
    ensures Run(Opening(), TwoLooks(symbol), limits)
         == Run(Desk(map[1 := Proposal(0, symbol, Hold, NoAction)], 1, 0, {1}, Idle), TwoLooks(symbol)[3..], limits)
  {
    var es := TwoLooks(symbol);
    var d0 := Opening();
    var d1, d2 := d0.(phase := Looking(0)), d0.(phase := Chosen(0, symbol));
    assert Attempts(map[], -DAY, None) == {} && Attempts(map[], -DAY, Some(symbol)) == {};
    assert Step(d0, es[0], limits) == Some(d1) && Step(d1, es[1], limits) == Some(d2);
    RunStep(d0, es, limits);
    RunStep(d1, es[1..], limits);
    assert es[1..][1..] == es[2..] && es[2..][1..] == es[3..] && es[1..][0] == es[1] && es[2..][0] == es[2];
    RunStep(d2, es[2..], limits);
  }

  lemma {:induction false} SecondLook(symbol: string, limits: Limits)
    requires symbol != "" && limits.Valid()
    ensures Run(Desk(map[1 := Proposal(0, symbol, Hold, NoAction)], 1, 0, {1}, Idle), TwoLooks(symbol)[3..], limits)
         == Some(Desk(map[1 := Proposal(0, symbol, Hold, NoAction), 2 := Proposal(DAY + 1, symbol, Hold, NoAction)],
                      2, DAY + 1, {1, 2}, Idle))
  {
    var es := TwoLooks(symbol)[3..];
    var rows := map[1 := Proposal(0, symbol, Hold, NoAction)];
    var now := DAY + 1;
    var d3 := Desk(rows, 1, 0, {1}, Idle);
    var d4, d5, d6 := d3.(clock := now), d3.(clock := now, phase := Looking(now)), d3.(clock := now, phase := Chosen(now, symbol));
    assert Attempts(rows, now - DAY, None) == {} && Attempts(rows, now - DAY, Some(symbol)) == {};
    assert MayPropose(rows, now, limits, {}, symbol);
    assert Step(d3, es[0], limits) == Some(d4) && Step(d4, es[1], limits) == Some(d5) && Step(d5, es[2], limits) == Some(d6);
    RunStep(d3, es, limits);
    RunStep(d4, es[1..], limits);
    assert es[1..][1..] == es[2..] && es[2..][1..] == es[3..] && es[1..][0] == es[1] && es[2..][0] == es[2];
    RunStep(d5, es[2..], limits);
    assert es[3..] == [Write(NoAction)] && es[3..][1..] == [];
    var d7 := Desk(map[1 := Proposal(0, symbol, Hold, NoAction), 2 := Proposal(now, symbol, Hold, NoAction)], 2, now, {1, 2}, Idle);
    assert rows[2 := Proposal(now, symbol, Hold, NoAction)] == d7.rows && {1} + {2} == d7.mine;
    assert d6.last + 1 == 2 && ActionFor(NoAction) == Hold;
    assert Step(d6, Write(NoAction), limits) == Some(d7);
    RunStep(d6, es[3..], limits);
  }

  ghost predicate CooldownHolds(limits: Limits) {
    forall es :: Run(Opening(), es, limits).Some? ==> Spaced(Run(Opening(), es, limits).value, limits.cooldown)
  }

  /** The configured cooldown is kept in every run exactly when it is no longer than the day looked back over. */
  lemma CooldownHoldsIff(limits: Limits)
    requires limits.Valid()
    ensures CooldownHolds(limits) <==> limits.cooldown <= DAY
  {
    if limits.cooldown <= DAY {
      forall es | Run(Opening(), es, limits).Some?
        ensures Spaced(Run(Opening(), es, limits).value, limits.cooldown)
      {
        RunsArePaced(Opening(), es, limits, 0, "");
      }
    } else {
      FirstLook("X", limits);
      SecondLook("X", limits);
      var v := Run(Opening(), TwoLooks("X"), limits).value;
      assert 1 in v.mine && 2 in v.mine && v.rows[1].underlying == v.rows[2].underlying;
      assert !Spaced(v, limits.cooldown);
    }
  }
}
