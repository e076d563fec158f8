/** Repricing a working close: a ladder of limits that never retreats. */
module Reprice {
  import opened Models
  import opened Reals

  // ---- Rounding to cents --------------------------------------------------

  /** The nearest integer, ties to even. */
  function HalfEven(y: real): int {
    var f := y.Floor;
    var r := y - f as real;
    if r < 0.5 || (r == 0.5 && f % 2 == 0) then f else f + 1
  }

  function Cents(price: real): int { HalfEven(price * 100.0) }

  function Dollars(cents: int): real { cents as real / 100.0 }

  /** Within half a unit, and even when it is exactly half a unit away. */
  lemma HalfEvenIsNearest(y: real)
    ensures Abs(y - HalfEven(y) as real) <= 0.5
    ensures Abs(y - HalfEven(y) as real) == 0.5 ==> HalfEven(y) % 2 == 0
    ensures y.Floor as real == y ==> HalfEven(y) as real == y
  {}

  lemma HalfEvenMonotone(x: real, y: real)
    requires x <= y
    ensures HalfEven(x) <= HalfEven(y)
  {
    assert x.Floor <= y.Floor;
  }

  // ---- The ladder ---------------------------------------------------------

  datatype CloseOrder = CloseOrder(mark: real, urgent: bool, paysDebit: bool, submittedAt: real)

  datatype Ladder = Ladder(nudge: real, stepSeconds: real, maxAttempts: nat)
  {
    predicate Valid() { 0.0 <= nudge <= 1.0 && stepSeconds > 0.0 }
  }

  /** `concession` of the mark given up: paid on top for a debit, taken off for a credit. */
  function PriceAt(mark: real, paysDebit: bool, concession: real): real {
    Max(0.01, mark * (if paysDebit then 1.0 + concession else 1.0 - concession))
  }

  function Concession(urgent: bool, attempt: nat, nudge: real): real {
    ((if urgent then 1 else 0) + attempt) as real * nudge
  }

  function LimitPrice(o: CloseOrder, nudge: real, attempt: nat): real {
    PriceAt(o.mark, o.paysDebit, Concession(o.urgent, attempt, nudge))
  }

  function Attempt(o: CloseOrder, now: real, l: Ladder): (n: nat)
    requires l.Valid()
    ensures n <= l.maxAttempts
  {
    var elapsed := Max(0.0, now - o.submittedAt);
    var n := (elapsed / l.stepSeconds).Floor;
    if n < 0 then 0 else if n < l.maxAttempts then n else l.maxAttempts
  }

  /** At least as marketable: higher for a debit, lower for a credit. */
  predicate AtLeast(paysDebit: bool, a: real, b: real) { if paysDebit then a >= b else a <= b }

  /** The limit a tick sends, in cents, given what the broker reports as the working limit. */
  function Resend(o: CloseOrder, now: real, current: Option<real>, l: Ladder): Option<int>
    requires l.Valid()
  {
    var attempt := Attempt(o, now, l);
    if attempt == 0 || o.mark <= 0.0 then None
    else
      var target := LimitPrice(o, l.nudge, attempt);
      if current.Some? && AtLeast(o.paysDebit, current.value, target) then None else Some(Cents(target))
  }

  /** More attempts never price a close further from the market. */
  lemma LadderClimbs(o: CloseOrder, nudge: real, j: nat, k: nat)
    requires j <= k && nudge >= 0.0 && o.mark > 0.0
    ensures AtLeast(o.paysDebit, LimitPrice(o, nudge, k), LimitPrice(o, nudge, j))
    ensures AtLeast(o.paysDebit, Cents(LimitPrice(o, nudge, k)) as real, Cents(LimitPrice(o, nudge, j)) as real)
  {
    hide PriceAt, Concession, HalfEven;
    var x, y := Concession(o.urgent, j, nudge), Concession(o.urgent, k, nudge);
    ConcessionGrows(o.urgent, j, k, nudge);
    ConcessionMoves(o.mark, o.paysDebit, x, y);
    var a, b := LimitPrice(o, nudge, j) * 100.0, LimitPrice(o, nudge, k) * 100.0;
    if o.paysDebit { HalfEvenMonotone(a, b); } else { HalfEvenMonotone(b, a); }
  }

  lemma ConcessionGrows(urgent: bool, j: nat, k: nat, nudge: real)
    requires j <= k && nudge >= 0.0
    ensures Concession(urgent, j, nudge) <= Concession(urgent, k, nudge)
  {
    var base := if urgent then 1 else 0;
    MulMonotone((base + j) as real, (base + k) as real, nudge, nudge);
  }

  lemma ConcessionMoves(mark: real, paysDebit: bool, x: real, y: real)
    requires x <= y && mark > 0.0
    ensures AtLeast(paysDebit, PriceAt(mark, paysDebit, y), PriceAt(mark, paysDebit, x))
  {
    if paysDebit { assert mark * (1.0 + y) - mark * (1.0 + x) == mark * (y - x) >= 0.0; }
    else { assert mark * (1.0 - x) - mark * (1.0 - y) == mark * (y - x) >= 0.0; }
  }

  lemma AttemptGrows(o: CloseOrder, t: real, u: real, l: Ladder)
    requires l.Valid() && t <= u
    ensures Attempt(o, t, l) <= Attempt(o, u, l)
  {
    DivMonotone(Max(0.0, t - o.submittedAt), Max(0.0, u - o.submittedAt), l.stepSeconds);
  }

  // ---- Reconcile ticks ----------------------------------------------------

  /**
   * One look at the working order: whether it can be replaced, whether its limit is echoed, whether the
   * replace took.
   */
  datatype Look = Look(now: real, working: bool, echoed: bool, accepted: bool)

  function AfterLook(o: CloseOrder, limit: int, look: Look, l: Ladder): int
    requires l.Valid()
  {
    var sent := Resend(o, look.now, if look.echoed then Some(Dollars(limit)) else None, l);
    if look.working && sent.Some? && look.accepted then sent.value else limit
  }

  function AfterLooks(o: CloseOrder, limit: int, looks: seq<Look>, l: Ladder): int
    requires l.Valid()
    decreases |looks|
  {
    if looks == [] then limit else AfterLooks(o, AfterLook(o, limit, looks[0], l), looks[1..], l)
  }

  predicate InOrder(from: real, looks: seq<Look>)
    decreases |looks|
  {
    looks == [] || (from <= looks[0].now && InOrder(looks[0].now, looks[1..]))
  }

  /** The working limit is a rounded rung no later than the clock allows. */
  ghost predicate OnRung(o: CloseOrder, limit: int, now: real, l: Ladder)
    requires l.Valid()
  {
    exists k: nat :: k <= Attempt(o, now, l) && limit == Cents(LimitPrice(o, l.nudge, k))
  }

  lemma LookClimbs(o: CloseOrder, limit: int, before: real, look: Look, l: Ladder)
    requires l.Valid() && o.mark > 0.0 && before <= look.now && OnRung(o, limit, before, l)
    ensures OnRung(o, AfterLook(o, limit, look, l), look.now, l)
    ensures AtLeast(o.paysDebit, AfterLook(o, limit, look, l) as real, limit as real)
  {
    hide LimitPrice, Attempt, Cents;
    var k: nat :| k <= Attempt(o, before, l) && limit == Cents(LimitPrice(o, l.nudge, k));
    AttemptGrows(o, before, look.now, l);
    LadderClimbs(o, l.nudge, k, Attempt(o, look.now, l));
  }

  /**
   * Over any sequence of looks in time order, the working limit never moves away from the market,
   * never passes the last rung, and never falls below a cent.
   */
  lemma {:induction false} LimitNeverRetreats(o: CloseOrder, limit: int, before: real, looks: seq<Look>, l: Ladder)
    requires l.Valid() && o.mark > 0.0 && OnRung(o, limit, before, l) && InOrder(before, looks)
    ensures var final := AfterLooks(o, limit, looks, l);
            && AtLeast(o.paysDebit, final as real, limit as real)
            && AtLeast(o.paysDebit, Cents(LimitPrice(o, l.nudge, l.maxAttempts)) as real, final as real)
            && final >= 1
    decreases |looks|
  {
    hide LimitPrice, Attempt, Cents, OnRung;
    if looks == [] {
      RungIsBounded(o, limit, before, l);
    } else {
      LookClimbs(o, limit, before, looks[0], l);
      LimitNeverRetreats(o, AfterLook(o, limit, looks[0], l), looks[0].now, looks[1..], l);
    }
  }

  lemma RungIsBounded(o: CloseOrder, limit: int, now: real, l: Ladder)
    requires l.Valid() && o.mark > 0.0 && OnRung(o, limit, now, l)
    ensures limit >= 1
    ensures AtLeast(o.paysDebit, Cents(LimitPrice(o, l.nudge, l.maxAttempts)) as real, limit as real)
  {
    hide LimitPrice, Attempt, HalfEven;
    var k: nat :| k <= Attempt(o, now, l) && limit == Cents(LimitPrice(o, l.nudge, k));
    LadderClimbs(o, l.nudge, k, l.maxAttempts);
    AtLeastACent(o, l.nudge, k);
  }

  lemma AtLeastACent(o: CloseOrder, nudge: real, k: nat)
    ensures Cents(LimitPrice(o, nudge, k)) >= 1
  {
    HalfEvenMonotone(1.0, LimitPrice(o, nudge, k) * 100.0);
  }

  /** The limit a close is first sent at is its rung zero. */
  lemma StartsOnRungZero(o: CloseOrder, l: Ladder)
    requires l.Valid()
    ensures OnRung(o, Cents(LimitPrice(o, l.nudge, 0)), o.submittedAt, l)
  {}

  /**
   * Once a rung has been sent and echoed, the next look at the same rung stays quiet exactly when
   * rounding did not leave the limit short of the rung; otherwise it sends the same limit again.
   */
  lemma QuietExactlyWhenRoundedFarEnough(o: CloseOrder, now: real, l: Ladder)
    requires l.Valid() && o.mark > 0.0 && Attempt(o, now, l) > 0
    ensures var target := LimitPrice(o, l.nudge, Attempt(o, now, l));
            var again := Resend(o, now, Some(Dollars(Cents(target))), l);
            && (again == None <==> AtLeast(o.paysDebit, Dollars(Cents(target)), target))
            && (again != None ==> again == Some(Cents(target)))
  {}

  /** A rung of 1.004 is sent as 1.00, which is still short, so it is sent on every later look. */
  lemma ShortRoundingResends(now: real)
    requires now >= 30.0
    ensures var o, l := CloseOrder(1.0, false, true, 0.0), Ladder(0.004, 30.0, 1);
            Resend(o, now, Some(1.0), l) == Some(100)
  {
    var o, l := CloseOrder(1.0, false, true, 0.0), Ladder(0.004, 30.0, 1);
    var n := now / 30.0;
    assert n.Floor >= 1;
    assert Attempt(o, now, l) == 1;
    assert LimitPrice(o, 0.004, 1) == 1.004;
    assert (100.4).Floor == 100;
  }

  // ---- How many replaces a close takes ------------------------------------

  function Sends(o: CloseOrder, limit: int, look: Look, l: Ladder): bool
    requires l.Valid()
  {
    look.working && Resend(o, look.now, if look.echoed then Some(Dollars(limit)) else None, l).Some?
  }

  /** Replaces sent over some looks, one after the other. */
  function Sent(o: CloseOrder, limit: int, looks: seq<Look>, l: Ladder): nat
    requires l.Valid()
    decreases |looks|
  {
    if looks == [] then 0
    else (if Sends(o, limit, looks[0], l) then 1 else 0) + Sent(o, AfterLook(o, limit, looks[0], l), looks[1..], l)
  }

  /** The broker echoes every limit and accepts every replace. */
  predicate Smooth(looks: seq<Look>) { forall look :: look in looks ==> look.working && look.echoed && look.accepted }

  /** Rounding does not leave the rung short of its target. */
  predicate FarEnough(o: CloseOrder, k: nat, l: Ladder) {
    AtLeast(o.paysDebit, Dollars(Cents(LimitPrice(o, l.nudge, k))), LimitPrice(o, l.nudge, k))
  }

  predicate NoRungShort(o: CloseOrder, l: Ladder) { forall k: nat | 1 <= k <= l.maxAttempts :: FarEnough(o, k, l) }

  /** The working limit covers rung `k`, or nothing has been asked of it yet. */
  predicate Reached(o: CloseOrder, limit: int, k: nat, l: Ladder) {
    k == 0 || AtLeast(o.paysDebit, Dollars(limit), LimitPrice(o, l.nudge, k))
  }

  lemma LookReaches(o: CloseOrder, limit: int, k: nat, look: Look, l: Ladder)
    requires l.Valid() && o.mark > 0.0 && NoRungShort(o, l) && Reached(o, limit, k, l)
    requires look.echoed && look.accepted && k <= Attempt(o, look.now, l)
    ensures var n := Attempt(o, look.now, l);
            if Sends(o, limit, look, l) then k < n && Reached(o, AfterLook(o, limit, look, l), n, l)
            else AfterLook(o, limit, look, l) == limit
  {
    hide LimitPrice, Attempt, Cents, Dollars;
    if Sends(o, limit, look, l) { assert FarEnough(o, Attempt(o, look.now, l), l); }
  }

  /** With no rung short, each replace climbs to a later rung. */
  lemma {:induction false} ClimbsOnly(o: CloseOrder, limit: int, k: nat, before: real, looks: seq<Look>, l: Ladder)
    requires l.Valid() && o.mark > 0.0 && NoRungShort(o, l) && Reached(o, limit, k, l)
    requires Smooth(looks) && InOrder(before, looks) && k <= Attempt(o, before, l)
    ensures k + Sent(o, limit, looks, l) <= l.maxAttempts
    decreases |looks|
  {
    hide Attempt, Reached, Sends, NoRungShort, AfterLook;
    if looks != [] {
      var look := looks[0];
      assert look in looks;
      AttemptGrows(o, before, look.now, l);
      LookReaches(o, limit, k, look, l);
      ClimbsOnly(o, AfterLook(o, limit, look, l), if Sends(o, limit, look, l) then Attempt(o, look.now, l) else k,
                 look.now, looks[1..], l);
    }
  }

  lemma OnTheRung(o: CloseOrder, k: nat, l: Ladder)
    requires l.Valid() && k <= l.maxAttempts
    ensures Attempt(o, o.submittedAt + k as real * l.stepSeconds, l) == k
  {
    var elapsed := k as real * l.stepSeconds;
    SignOfProduct(k as real, l.stepSeconds);
    assert Max(0.0, (o.submittedAt + elapsed) - o.submittedAt) == elapsed;
    assert elapsed / l.stepSeconds == k as real;
  }

  /** Looks made over and over while one rung is due. */
  function Staring(now: real, n: nat): (looks: seq<Look>)
    ensures Smooth(looks) && |looks| == n
    ensures forall look :: look in looks ==> look.now == now
  {
    if n == 0 then [] else [Look(now, true, true, true)] + Staring(now, n - 1)
  }

  lemma {:induction false} StaringIsInOrder(now: real, n: nat, before: real)
    requires before <= now
    ensures InOrder(before, Staring(now, n))
  {
    if n > 0 {
      StaringIsInOrder(now, n - 1, now);
      assert Staring(now, n)[1..] == Staring(now, n - 1);
    }
  }

  lemma {:induction false} ShortRungSendsForever(o: CloseOrder, limit: int, k: nat, now: real, n: nat, l: Ladder)
    requires l.Valid() && o.mark > 0.0 && Attempt(o, now, l) == k > 0 && !FarEnough(o, k, l)
    requires AtLeast(o.paysDebit, Cents(LimitPrice(o, l.nudge, k)) as real, limit as real)
    ensures Sent(o, limit, Staring(now, n), l) == n
    decreases n
  {
    if n > 0 {
      var looks := Staring(now, n);
      assert looks[1..] == Staring(now, n - 1);
      hide LimitPrice, Attempt, HalfEven;
      assert Sends(o, limit, looks[0], l);
      ShortRungSendsForever(o, AfterLook(o, limit, looks[0], l), k, now, n - 1, l);
    }
  }

  /** Some looks at a smooth broker from the moment of sending, with exactly `n` replaces among them. */
  ghost predicate CanTake(o: CloseOrder, n: nat, l: Ladder)
    requires l.Valid()
  {
    exists looks | Smooth(looks) && InOrder(o.submittedAt, looks) ::
      Sent(o, Cents(LimitPrice(o, l.nudge, 0)), looks, l) == n
  }

  /**
   * Over any looks at a smooth broker a close takes at most as many replaces as there are rungs,
   * exactly when no rung rounds short of its target; with one that does, no number is enough.
   */
  lemma {:induction false} ReplacesAreBoundedIff(o: CloseOrder, l: Ladder)
    requires l.Valid() && o.mark > 0.0
    ensures (forall looks | Smooth(looks) && InOrder(o.submittedAt, looks) ::
               Sent(o, Cents(LimitPrice(o, l.nudge, 0)), looks, l) <= l.maxAttempts)
       <==> NoRungShort(o, l)
    ensures !NoRungShort(o, l) ==> forall n: nat :: CanTake(o, n, l)
  {
    hide LimitPrice, Attempt, Cents, FarEnough, Sent, Smooth, InOrder, Staring;
    var limit := Cents(LimitPrice(o, l.nudge, 0));
    if NoRungShort(o, l) {
      forall looks | Smooth(looks) && InOrder(o.submittedAt, looks) ensures Sent(o, limit, looks, l) <= l.maxAttempts {
        ClimbsOnly(o, limit, 0, o.submittedAt, looks, l);
      }
    } else {
      var k: nat :| 1 <= k <= l.maxAttempts && !FarEnough(o, k, l);
      var now := o.submittedAt + k as real * l.stepSeconds;
      OnTheRung(o, k, l);
      SignOfProduct(k as real, l.stepSeconds);
      LadderClimbs(o, l.nudge, 0, k);
      forall n: nat ensures CanTake(o, n, l) {
        StaringIsInOrder(now, n, o.submittedAt);
        ShortRungSendsForever(o, limit, k, now, n, l);
        assert Sent(o, limit, Staring(now, n), l) == n;
      }
      assert CanTake(o, l.maxAttempts + 1, l);
      var looks :| Smooth(looks) && InOrder(o.submittedAt, looks) && Sent(o, limit, looks, l) == l.maxAttempts + 1;
    }
  }

  /** What is sent is within half a cent of what was priced. */
  lemma SentNearPriced(price: real)
    ensures -0.005 <= Dollars(Cents(price)) - price <= 0.005
  {
    HalfEvenIsNearest(price * 100.0);
  }

  // ---- The rungs ----------------------------------------------------------

  /**
   * Rung by rung the price moves by the nudge's share of the mark, up for a debit and down for a
   * credit, from the mark itself, or from one rung further on when the close is urgent, down to a cent.
   */
  lemma RungPrices(o: CloseOrder, nudge: real, k: nat)
    ensures var calm, urgent := o.(urgent := false), o.(urgent := true);
            && LimitPrice(calm, nudge, 0) == Max(0.01, o.mark)
            && LimitPrice(urgent, nudge, k) == LimitPrice(calm, nudge, k + 1)
            && LimitPrice(calm, nudge, k)
               == Max(0.01, if o.paysDebit then o.mark + k as real * (nudge * o.mark) else o.mark - k as real * (nudge * o.mark))
  {
    assert Concession(false, k, nudge) == k as real * nudge && Concession(false, 0, nudge) == 0.0;
    assert Concession(true, k, nudge) == Concession(false, k + 1, nudge);
    Taken(o.mark, k as real, nudge);
  }

  lemma Taken(mark: real, k: real, nudge: real)
    ensures mark * (1.0 + k * nudge) == mark + k * (nudge * mark)
    ensures mark * (1.0 - k * nudge) == mark - k * (nudge * mark)
  {
    assert mark * (k * nudge) == k * (nudge * mark);
  }

  /** The rung due is the number of whole steps since the close was sent, up to the last. */
  lemma RungDue(o: CloseOrder, now: real, l: Ladder)
    requires l.Valid()
    ensures var n, waited := Attempt(o, now, l), Max(0.0, now - o.submittedAt);
            && n as real * l.stepSeconds <= waited
            && (waited < (n as real + 1.0) * l.stepSeconds || n == l.maxAttempts)
  {
    var waited := Max(0.0, now - o.submittedAt);
    var n := Attempt(o, now, l);
    WholeSteps(waited, l.stepSeconds, n, l.maxAttempts);
  }

  lemma WholeSteps(waited: real, step: real, n: nat, cap: nat)
    requires waited >= 0.0 && step > 0.0
    requires var f := (waited / step).Floor; n == if f < 0 then 0 else if f < cap then f else cap
    ensures n as real * step <= waited
    ensures waited < (n as real + 1.0) * step || n == cap
  {
    var ratio := waited / step;
    assert ratio * step == waited;
    SignOfProduct(ratio, step);
    assert ratio.Floor as real <= ratio < ratio.Floor as real + 1.0 && ratio.Floor >= 0;
    Scaled(n as real, ratio, step);
    if n < cap {
      ScaledStrictly(ratio, n as real + 1.0, step);
      assert waited < (n as real + 1.0) * step;
    } else {
      assert n == cap;
    }
  }

  lemma Scaled(a: real, b: real, c: real)
    requires a <= b && c > 0.0
    ensures a * c <= b * c
  {
    SignOfProduct(b - a, c);
    assert (b - a) * c == b * c - a * c;
  }

  lemma ScaledStrictly(a: real, b: real, c: real)
    requires a < b && c > 0.0
    ensures a * c < b * c
  {
    MulPositive(b - a, c);
    assert (b - a) * c == b * c - a * c;
  }
}
