/** The implied-vol solver: Newton steps kept inside a bisection bracket. */
module ImpliedVol {
  import opened Models

  /** Model price minus market price, as a function of vol, with the vega the Newton step divides by. */
  datatype Model = Model(gap: real -> real, vega: real -> real)

  const LO: real := 0.0001
  const HI: real := 5.0
  const WIDE: real := 10.0
  const TOL: real := 0.0000001
  /** A vega no larger supports no Newton step. */
  const FLAT: real := 0.000000000001
  const MAX_ITER: nat := 100

  ghost predicate Increasing(gap: real -> real) {
    forall x, y :: 0.0 < x <= y ==> gap(x) <= gap(y)
  }

  datatype Bracket = Bracket(a: real, sigma: real, b: real)

  /** A bracket inside the search range, with the root's sign change across it and sigma strictly within. */
  ghost predicate Sound(k: Bracket, m: Model) {
    && LO <= k.a < k.sigma < k.b <= WIDE
    && m.gap(k.a) <= 0.0 <= m.gap(k.b)
  }

  /** `k` lies inside `j` and is strictly narrower. */
  predicate Narrower(k: Bracket, j: Bracket) { j.a <= k.a && k.b <= j.b && k.b - k.a < j.b - j.a }

  /** Why the answer is acceptable: it prices within tolerance, it moved less than the tolerance, or time ran out. */
  datatype Stop = Priced | Stalled | OutOfIterations

  /** The vol after the bracket update: a Newton step if it lands inside, otherwise the midpoint. */
  function Next(sigma: real, diff: real, vega: real, a: real, b: real): real {
    var mid := 0.5 * (a + b);
    if vega > FLAT && a < sigma - diff / vega < b then sigma - diff / vega else mid
  }

  /** One iteration: the half that keeps the sign change, and a new vol strictly inside it. */
  function Refine(k: Bracket, m: Model): Bracket {
    var diff := m.gap(k.sigma);
    var a := if diff > 0.0 then k.a else k.sigma;
    var b := if diff > 0.0 then k.sigma else k.b;
    Bracket(a, Next(k.sigma, diff, m.vega(k.sigma), a, b), b)
  }

  lemma RefineIsSound(k: Bracket, m: Model)
    requires Sound(k, m)
    ensures Sound(Refine(k, m), m) && Narrower(Refine(k, m), k)
  {
    hide Next;
    var r := Refine(k, m);
    NextIsInside(k.sigma, m.gap(k.sigma), m.vega(k.sigma), r.a, r.b);
  }

  lemma NextIsInside(sigma: real, diff: real, vega: real, a: real, b: real)
    requires a < b
    ensures a < Next(sigma, diff, vega, a, b) < b
    ensures vega <= FLAT ==> Next(sigma, diff, vega, a, b) == 0.5 * (a + b)
  {}

  /** From a midpoint a pure bisection halves the bracket, and stalls once it is narrow enough. */
  lemma RefineHalves(k: Bracket, m: Model)
    requires Sound(k, m) && BisectsOnly(m)
    ensures var r := Refine(k, m);
            && r.sigma == 0.5 * (r.a + r.b)
            && (k.sigma == 0.5 * (k.a + k.b) ==> r.b - r.a == (k.b - k.a) / 2.0)
            && Abs(r.sigma - k.sigma) == (r.b - r.a) / 2.0
  {
    hide Next;
    var r := Refine(k, m);
    NextIsInside(k.sigma, m.gap(k.sigma), m.vega(k.sigma), r.a, r.b);
  }

  /** The vega never supports a Newton step, so every step bisects. */
  ghost predicate BisectsOnly(m: Model) { forall x :: m.vega(x) <= 0.000000000001 }

  /** Ten, halved `n` times. */
  function Halved(n: nat): real { if n == 0 then 10.0 else Halved(n - 1) / 2.0 }

  lemma HalvedTenTimes(n: nat)
    ensures Halved(n + 10) * 1024.0 == Halved(n)
  {
    assert Halved(n + 1) == Halved(n) / 2.0;
    assert Halved(n + 2) == Halved(n + 1) / 2.0;
    assert Halved(n + 3) == Halved(n + 2) / 2.0;
    assert Halved(n + 4) == Halved(n + 3) / 2.0;
    assert Halved(n + 5) == Halved(n + 4) / 2.0;
    assert Halved(n + 6) == Halved(n + 5) / 2.0;
    assert Halved(n + 7) == Halved(n + 6) / 2.0;
    assert Halved(n + 8) == Halved(n + 7) / 2.0;
    assert Halved(n + 9) == Halved(n + 8) / 2.0;
    assert Halved(n + 10) == Halved(n + 9) / 2.0;
  }

  lemma HalvedIsSmall()
    ensures Halved(30) < 2.0 * TOL
  {
    HalvedTenTimes(0);
    HalvedTenTimes(10);
    HalvedTenTimes(20);
  }

  /** Input and no-arbitrage screening, before any search. `spot`, `strike` and `t` as quoted. */
  predicate Solvable(price: Option<real>, spot: real, strike: real, t: real, lower: real, upper: real) {
    && price.Some? && price.value > 0.0 && spot > 0.0 && strike > 0.0 && t > 0.0
    && lower + 0.0000000001 < price.value < upper - 0.000000000001
  }

  function Middle(k: Bracket): real { 0.5 * (k.a + k.b) }

  /** `x` is where the tangent to the gap at `sigma` crosses zero, the slope being steep enough to follow. */
  predicate OnTangent(sigma: real, x: real, m: Model) {
    m.vega(sigma) > 0.000000000001 && m.gap(sigma) + m.vega(sigma) * (x - sigma) == 0.0
  }

  /**
   * `k` is one iteration after `j`: the side of `j`'s vol on which the gap changes sign, with the
   * tangent's zero as its vol if that lies strictly inside, and its midpoint otherwise.
   */
  ghost predicate Follows(j: Bracket, k: Bracket, m: Model) {
    && (if m.gap(j.sigma) > 0.0 then k.a == j.a && k.b == j.sigma else k.a == j.sigma && k.b == j.b)
    && (if exists x :: k.a < x < k.b && OnTangent(j.sigma, x, m) then OnTangent(j.sigma, k.sigma, m)
        else k.sigma == Middle(k))
  }

  /**
   * The brackets of a search from its start: none but the last prices, and every vol moves by the
   * tolerance or more.
   */
  ghost predicate Searched(trail: seq<Bracket>, m: Model) {
    && trail != []
    && trail[0] == Bracket(LO, 0.5, if m.gap(HI) < 0.0 then WIDE else HI)
    && (forall i :: 0 <= i < |trail| - 1 ==> Moves(trail[i], trail[i + 1], m))
  }

  ghost predicate Moves(j: Bracket, k: Bracket, m: Model) {
    Follows(j, k, m) && Abs(m.gap(j.sigma)) >= TOL && Abs(k.sigma - j.sigma) >= TOL
  }

  /** The answer is the last vol, which prices or has run out of iterations, or the next one, hardly different. */
  ghost predicate Answers(vol: real, trail: seq<Bracket>, stop: Stop, m: Model)
    requires trail != []
  {
    var last := trail[|trail| - 1];
    match stop
    case Priced => vol == last.sigma && Abs(m.gap(vol)) < 0.0000001
    case Stalled =>
      && Abs(m.gap(last.sigma)) >= 0.0000001 && Abs(vol - last.sigma) < 0.0000001
      && exists k: Bracket :: k.sigma == vol && Follows(last, k, m)
    case OutOfIterations => vol == last.sigma && |trail| == 101 && !BisectsOnly(m)
  }

  /** A steep enough tangent has one zero, a flat one none. */
  lemma TangentZero(sigma: real, m: Model)
    ensures forall x :: OnTangent(sigma, x, m) <==> m.vega(sigma) > FLAT && x == sigma - m.gap(sigma) / m.vega(sigma)
  {
    var diff, vega := m.gap(sigma), m.vega(sigma);
    if vega > FLAT {
      Crossing(sigma, diff, vega);
      forall x | OnTangent(sigma, x, m) ensures x == sigma - diff / vega { OneCrossing(sigma, x, diff, vega); }
    }
  }

  lemma RefineFollows(k: Bracket, m: Model)
    requires Sound(k, m)
    ensures Follows(k, Refine(k, m), m)
  {
    hide OnTangent;
    TangentZero(k.sigma, m);
  }

  lemma Crossing(sigma: real, diff: real, vega: real)
    requires vega > 0.0
    ensures diff + vega * ((sigma - diff / vega) - sigma) == 0.0
  {
    assert vega * (diff / vega) == diff;
  }

  lemma OneCrossing(sigma: real, x: real, diff: real, vega: real)
    requires vega > 0.0 && diff + vega * (x - sigma) == 0.0
    ensures x == sigma - diff / vega
  {
    assert vega * (sigma - x) == diff;
    assert (vega * (sigma - x)) / vega == sigma - x;
  }

  lemma SearchStarts(k: Bracket, m: Model)
    requires k == Bracket(LO, 0.5, if m.gap(HI) < 0.0 then WIDE else HI)
    ensures Searched([k], m)
  {}

  lemma SearchGoesOn(trail: seq<Bracket>, k: Bracket, m: Model)
    requires Searched(trail, m) && Moves(trail[|trail| - 1], k, m)
    ensures Searched(trail + [k], m)
  {
    hide Moves;
  }

  /** Every bracket is sound and strictly narrower than the one before. */
  ghost predicate Closing(trail: seq<Bracket>, m: Model) {
    && (forall i :: 0 <= i < |trail| ==> Sound(trail[i], m))
    && (forall i :: 0 <= i < |trail| - 1 ==> Narrower(trail[i + 1], trail[i]))
  }

  lemma NothingClosing(m: Model)
    ensures Closing([], m)
  {}

  lemma ClosingStarts(k: Bracket, m: Model)
    requires Sound(k, m)
    ensures Closing([k], m)
  {}

  lemma ClosingGoesOn(trail: seq<Bracket>, m: Model)
    requires trail != [] && Closing(trail, m)
    ensures Sound(trail[|trail| - 1], m)
    ensures Closing(trail + [Refine(trail[|trail| - 1], m)], m)
  {
    hide Refine, Narrower;
    RefineIsSound(trail[|trail| - 1], m);
  }

  /** The search range, widened once when the price lies above its top; `None` when no vol in it can give the price. */
  method FirstBracket(m: Model) returns (k: Option<Bracket>)
    requires Increasing(m.gap)
    ensures k.None? <==> m.gap(0.0001) > 0.0 || m.gap(10.0) < 0.0
    ensures k.Some? ==> Sound(k.value, m) && Bisecting(0, k.value)
    ensures k.Some? ==> k.value == Bracket(0.0001, 0.5, if m.gap(5.0) < 0.0 then 10.0 else 5.0)
  {
    var a, b := LO, HI;
    if m.gap(a) > 0.0 { return None; }
    if m.gap(b) < 0.0 {
      b := WIDE;
      if m.gap(b) < 0.0 { return None; }
    }
    var sigma := if a < 0.5 < b then 0.5 else 0.5 * (a + b);
    k := Some(Bracket(a, sigma, b));
  }

  /**
   * The search. `trail` records the bracket at the start of every iteration, from the whole range on:
   * each is sound and strictly narrower than the one before, each follows from the one before by a
   * Newton step or a bisection, and the answer is what the last of them settles.
   */
  method Search(m: Model) returns (vol: Option<real>, ghost trail: seq<Bracket>, ghost stop: Stop)
    requires Increasing(m.gap)
    ensures vol.None? <==> m.gap(0.0001) > 0.0 || m.gap(10.0) < 0.0
    ensures vol.Some? ==> 0.0001 <= vol.value <= 10.0
    ensures vol.Some? ==> 0 < |trail| <= 101
    ensures Closing(trail, m)
    ensures vol.Some? ==> trail[|trail| - 1].a < vol.value < trail[|trail| - 1].b
    ensures vol.Some? ==> Searched(trail, m) && Answers(vol.value, trail, stop, m)
  {
    hide Sound, Closing, BisectsOnly, Bisecting, Next, Increasing, Refine, Searched, Follows;
    trail, stop := [], OutOfIterations;
    var first := FirstBracket(m);
    if first.None? { NothingClosing(m); return None, [], stop; }
    var a, sigma, b := first.value.a, first.value.sigma, first.value.b;
    trail := [first.value];
    ClosingStarts(trail[0], m);
    SearchStarts(trail[0], m);
    for n := 0 to MAX_ITER
      invariant |trail| == n + 1 && trail[n] == Bracket(a, sigma, b) && Sound(trail[n], m)
      invariant Closing(trail, m) && Searched(trail, m)
      invariant BisectsOnly(m) ==> Bisecting(n, trail[n])
    {
      ghost var k := trail[n];
      var diff := m.gap(sigma);
      if Abs(diff) < TOL { AnswerInside(k, m); return Some(sigma), trail, Priced; }
      ClosingGoesOn(trail, m);
      RefineFollows(k, m);
      var next;
      a, next, b := Tighten(a, sigma, b, diff, m);
      if Abs(next - sigma) < TOL {
        AnswerRefined(k, m);
        assert Refine(k, m).sigma == next;
        return Some(next), trail, Stalled;
      }
      if BisectsOnly(m) { BisectingGoesOn(n, k, m); }
      SearchGoesOn(trail, Refine(k, m), m);
      sigma := next;
      trail := trail + [Refine(k, m)];
    }
    AnswerInside(trail[MAX_ITER], m);
    if BisectsOnly(m) { BisectingEnds(MAX_ITER, trail[MAX_ITER]); }
    return Some(sigma), trail, OutOfIterations;
  }

  /** The bracket update and the next vol of one iteration. */
  method Tighten(a: real, sigma: real, b: real, diff: real, m: Model) returns (a': real, next: real, b': real)
    requires Sound(Bracket(a, sigma, b), m) && diff == m.gap(sigma)
    ensures Bracket(a', next, b') == Refine(Bracket(a, sigma, b), m)
    ensures Sound(Bracket(a', next, b'), m)
  {
    RefineIsSound(Bracket(a, sigma, b), m);
    a', b' := a, b;
    if diff > 0.0 { b' := sigma; } else { a' := sigma; }
    next := Next(sigma, diff, m.vega(sigma), a', b');
  }

  /** After the first cut at 0.5 every step halves the bracket, and the search is not past its end. */
  ghost predicate Bisecting(n: nat, k: Bracket) {
    n <= 31 && k.b - k.a <= Halved(if n == 0 then 0 else n - 1) && (n > 0 ==> k.sigma == 0.5 * (k.a + k.b))
  }

  lemma BisectingEnds(n: nat, k: Bracket)
    requires Bisecting(n, k)
    ensures n <= 31
  {}

  lemma BisectingGoesOn(n: nat, k: Bracket, m: Model)
    requires Sound(k, m) && BisectsOnly(m) && Bisecting(n, k) && Abs(Refine(k, m).sigma - k.sigma) >= TOL
    ensures Bisecting(n + 1, Refine(k, m))
  {
    RefineHalves(k, m);
    RefineIsSound(k, m);
    HalvedIsSmall();
    hide Refine, Next, BisectsOnly;
  }

  lemma AnswerInside(k: Bracket, m: Model)
    requires Sound(k, m)
    ensures k.a < k.sigma < k.b && LO <= k.sigma <= WIDE
  {}

  lemma AnswerRefined(k: Bracket, m: Model)
    requires Sound(k, m)
    ensures k.a < Refine(k, m).sigma < k.b && LO <= Refine(k, m).sigma <= WIDE
  {
    RefineIsSound(k, m);
  }

  method Solve(price: Option<real>, spot: real, strike: real, t: real, lower: real, upper: real, m: Model)
    returns (vol: Option<real>, ghost trail: seq<Bracket>, ghost stop: Stop)
    requires Increasing(m.gap)
    ensures vol.Some? <==>
              Solvable(price, spot, strike, t, lower, upper) && m.gap(0.0001) <= 0.0 <= m.gap(10.0)
    ensures vol.Some? ==> 0.0001 <= vol.value <= 10.0
    ensures vol.Some? ==> Closing(trail, m) && Searched(trail, m) && Answers(vol.value, trail, stop, m)
    ensures vol.Some? && BisectsOnly(m) ==>
              Abs(m.gap(vol.value)) < 0.0000001 || forall root | IsRoot(root, m) :: Abs(vol.value - root) < 0.0000001
  {
    hide Searched, Closing, Follows, BisectsOnly, Answers, IsRoot, Increasing;
    trail, stop := [], OutOfIterations;
    if !Solvable(price, spot, strike, t, lower, upper) { return None, trail, stop; }
    vol, trail, stop := Search(m);
    if vol.Some? && BisectsOnly(m) { BisectionFindsTheVol(vol.value, trail, stop, m); }
  }

  // ---- What the answer is worth -------------------------------------------

  /** A vol of the range searched that reproduces the price. */
  predicate IsRoot(root: real, m: Model) {
    0.0001 <= root <= (if m.gap(5.0) < 0.0 then 10.0 else 5.0) && m.gap(root) == 0.0
  }

  /** No root of the range is ever cut off: what is cut off does not price even within the tolerance. */
  lemma {:induction false} RootsStayInside(trail: seq<Bracket>, m: Model, root: real, n: nat)
    requires Increasing(m.gap) && Searched(trail, m) && Closing(trail, m) && n < |trail| && IsRoot(root, m)
    ensures trail[n].a <= root <= trail[n].b
  {
    if n > 0 {
      RootsStayInside(trail, m, root, n - 1);
      assert Moves(trail[n - 1], trail[n], m);
      RootOnOneSide(trail[n - 1], m, root);
      hide Increasing;
    }
  }

  lemma RootOnOneSide(k: Bracket, m: Model, root: real)
    requires Increasing(m.gap) && Sound(k, m) && IsRoot(root, m) && Abs(m.gap(k.sigma)) >= TOL
    ensures if m.gap(k.sigma) > 0.0 then root <= k.sigma else k.sigma <= root
  {}

  /**
   * A search that stalls has a small gap for its slope, or an answer within the tolerance of every
   * vol that reproduces the price.
   */
  lemma StalledIsClose(vol: real, trail: seq<Bracket>, m: Model)
    requires trail != [] && Increasing(m.gap) && Searched(trail, m) && Closing(trail, m) && Answers(vol, trail, Stalled, m)
    ensures var s := trail[|trail| - 1].sigma;
            || (m.vega(s) > 0.000000000001 && Abs(m.gap(s)) < 0.0000001 * m.vega(s))
            || forall root | IsRoot(root, m) :: Abs(vol - root) < 0.0000001
  {
    hide Increasing, IsRoot, Searched;
    var last := trail[|trail| - 1];
    var k: Bracket :| k.sigma == vol && Follows(last, k, m);
    if OnTangent(last.sigma, vol, m) {
      SmallStep(last.sigma, vol, m);
    } else {
      forall root | IsRoot(root, m) ensures Abs(vol - root) < TOL {
        RootsStayInside(trail, m, root, |trail| - 1);
        RootOnOneSide(last, m, root);
        assert k.sigma == Middle(k) && k.a <= root <= k.b;
      }
    }
  }

  lemma SmallStep(s: real, x: real, m: Model)
    requires OnTangent(s, x, m) && Abs(x - s) < TOL
    ensures Abs(m.gap(s)) < TOL * m.vega(s)
  {
    SmallProduct(m.gap(s), m.vega(s), x - s, TOL);
  }

  lemma SmallProduct(gap: real, v: real, step: real, most: real)
    requires v > 0.0 && gap + v * step == 0.0 && -most < step < most
    ensures -(most * v) < gap < most * v
  {
    ShortOf(v, step, most);
    ShortOf(v, -step, most);
    assert v * -step == -(v * step);
  }

  lemma ShortOf(v: real, step: real, most: real)
    requires v > 0.0 && step < most
    ensures v * step < most * v
  {
    assert v * (most - step) > 0.0;
  }

  /** Bisecting all the way, the answer prices within the tolerance or is within it of every vol that prices. */
  lemma BisectionFindsTheVol(vol: real, trail: seq<Bracket>, stop: Stop, m: Model)
    requires trail != [] && Increasing(m.gap) && Searched(trail, m) && Closing(trail, m) && Answers(vol, trail, stop, m)
    requires BisectsOnly(m)
    ensures Abs(m.gap(vol)) < 0.0000001 || forall root | IsRoot(root, m) :: Abs(vol - root) < 0.0000001
  {
    hide Searched, Closing, Increasing, IsRoot, Follows;
    if stop.Stalled? {
      StalledIsClose(vol, trail, m);
      assert m.vega(trail[|trail| - 1].sigma) <= FLAT;
    }
  }

  /** On a straight gap one Newton step lands on the root, and the search stops there. */
  lemma NewtonSolvesStraight(vol: real, trail: seq<Bracket>, stop: Stop, m: Model, slope: real, root: real)
    requires Searched(trail, m) && Answers(vol, trail, stop, m) && slope > FLAT
    requires forall x :: m.gap(x) == slope * (x - root) && m.vega(x) == slope
    requires LO < root < trail[0].b
    ensures vol == root || (vol == 0.5 && Abs(m.gap(0.5)) < TOL)
  {
    hide Answers;
    var first := trail[0];
    forall k: Bracket | Follows(first, k, m) && Abs(m.gap(0.5)) >= TOL ensures k.sigma == root {
      StraightToTheRoot(first, k, m, slope, root);
    }
    assert |trail| > 2 ==> Moves(trail[1], trail[2], m);
    if |trail| > 1 {
      assert Moves(trail[0], trail[1], m);
      assert m.gap(root) == slope * 0.0;
    }
    StopOnRoot(vol, trail, stop, m, root);
  }

  lemma StopOnRoot(vol: real, trail: seq<Bracket>, stop: Stop, m: Model, root: real)
    requires 1 <= |trail| <= 2 && Answers(vol, trail, stop, m) && m.gap(root) == 0.0 && trail[0].sigma == 0.5
    requires forall k: Bracket :: Follows(trail[0], k, m) && Abs(m.gap(0.5)) >= TOL ==> k.sigma == root
    requires |trail| == 2 ==> trail[1].sigma == root
    ensures vol == root || (vol == 0.5 && Abs(m.gap(0.5)) < TOL)
  {
    hide Follows;
  }

  lemma StraightToTheRoot(j: Bracket, k: Bracket, m: Model, slope: real, root: real)
    requires Follows(j, k, m) && slope > FLAT && j.a < root < j.b && Abs(m.gap(j.sigma)) >= TOL
    requires forall x :: m.gap(x) == slope * (x - root) && m.vega(x) == slope
    ensures k.sigma == root
  {
    hide OnTangent;
    StraightZero(j.sigma, m.gap(j.sigma), slope, root);
    TangentZero(j.sigma, m);
    assert OnTangent(j.sigma, root, m);
  }

  lemma StraightZero(sigma: real, gap: real, slope: real, root: real)
    requires slope > 0.0 && gap == slope * (sigma - root)
    ensures gap > 0.0 <==> sigma > root
    ensures root == sigma - gap / slope
  {
    assert gap / slope == sigma - root;
  }

  // ---- The root is never lost ---------------------------------------------

  ghost predicate StrictlyIncreasing(gap: real -> real) {
    forall x, y :: 0.0 < x < y ==> gap(x) < gap(y)
  }

  /**
   * The vol that reproduces the price is in every sound bracket, so no answer is further off than the
   * last one is wide.
   */
  lemma RootNeverLost(trail: seq<Bracket>, m: Model, root: real, vol: real)
    requires StrictlyIncreasing(m.gap) && 0.0 < root && m.gap(root) == 0.0
    requires trail != [] && Closing(trail, m)
    requires trail[|trail| - 1].a < vol < trail[|trail| - 1].b
    ensures forall i :: 0 <= i < |trail| ==> trail[i].a <= root <= trail[i].b
    ensures Abs(vol - root) < trail[|trail| - 1].b - trail[|trail| - 1].a
  {
    forall i | 0 <= i < |trail| ensures trail[i].a <= root <= trail[i].b { RootInside(trail[i], m, root); }
  }

  lemma RootInside(k: Bracket, m: Model, root: real)
    requires StrictlyIncreasing(m.gap) && 0.0 < root && m.gap(root) == 0.0 && Sound(k, m)
    ensures k.a <= root <= k.b
  {}
}
