/** How far stated conviction has predicted profit: a clamped Pearson correlation with a prior. */
module Reliability {
  import opened Models
  import opened Reals
  import opened Collections

  /** A closed trade: stated conviction and realised profit. */
  type Trade = (real, real)

  /** Square root, characterised by what it returns on non-negative numbers. */
  ghost predicate IsSquareRoot(sqrt: real -> real) {
    forall v :: v >= 0.0 ==> sqrt(v) >= 0.0 && sqrt(v) * sqrt(v) == v
  }

  function Usable(outcomes: seq<(Option<real>, Option<real>)>): seq<Trade> {
    if outcomes == [] then []
    else
      var last := outcomes[|outcomes| - 1];
      Usable(outcomes[..|outcomes| - 1])
      + (if last.0.Some? && last.1.Some? then [(last.0.value, last.1.value)] else [])
  }

  function Total(ts: seq<Trade>, f: Trade -> real): real {
    if ts == [] then 0.0 else Total(ts[..|ts| - 1], f) + f(ts[|ts| - 1])
  }

  function First(): Trade -> real { (t: Trade) => t.0 }

  function Second(): Trade -> real { (t: Trade) => t.1 }

  function Times(a: real, b: real): real { a * b }

  function CrossDeviation(mx: real, my: real): Trade -> real { (t: Trade) => Times(t.0 - mx, t.1 - my) }

  function SquareX(mx: real): Trade -> real { (t: Trade) => Times(t.0 - mx, t.0 - mx) }

  function SquareY(my: real): Trade -> real { (t: Trade) => Times(t.1 - my, t.1 - my) }

  function MeanX(ts: seq<Trade>): real
    requires ts != []
  {
    Total(ts, First()) / |ts| as real
  }

  function MeanY(ts: seq<Trade>): real
    requires ts != []
  {
    Total(ts, Second()) / |ts| as real
  }

  function Cov(ts: seq<Trade>): real
    requires ts != []
  {
    Total(ts, CrossDeviation(MeanX(ts), MeanY(ts)))
  }

  function VarX(ts: seq<Trade>): real
    requires ts != []
  {
    Total(ts, SquareX(MeanX(ts)))
  }

  function VarY(ts: seq<Trade>): real
    requires ts != []
  {
    Total(ts, SquareY(MeanY(ts)))
  }

  predicate Degenerate(variance: real, n: nat, sqrt: real -> real)
    requires n > 0
  {
    variance <= 0.0 || sqrt(variance / n as real) < 0.000000001
  }

  predicate NoSpread(ts: seq<Trade>, sqrt: real -> real)
    requires ts != []
  {
    Degenerate(VarX(ts), |ts|, sqrt) || Degenerate(VarY(ts), |ts|, sqrt)
  }

  /** What the covariance is divided by. */
  function Denominator(ts: seq<Trade>, sqrt: real -> real): real
    requires ts != []
  {
    sqrt(Times(VarX(ts), VarY(ts)))
  }

  /** The correlation before it is clamped. */
  function Correlation(ts: seq<Trade>, sqrt: real -> real): real
    requires ts != [] && Denominator(ts, sqrt) != 0.0
  {
    Cov(ts) / Denominator(ts, sqrt)
  }

  lemma RootPositive(v: real, sqrt: real -> real)
    requires IsSquareRoot(sqrt) && v > 0.0
    ensures sqrt(v) > 0.0
  {
    var r := sqrt(v);
    assert r >= 0.0 && r * r == v;
  }

  lemma SpreadGivesRoot(ts: seq<Trade>, sqrt: real -> real)
    requires IsSquareRoot(sqrt) && ts != [] && !NoSpread(ts, sqrt)
    ensures VarX(ts) > 0.0 && VarY(ts) > 0.0
    ensures Denominator(ts, sqrt) > 0.0
    ensures Denominator(ts, sqrt) * Denominator(ts, sqrt) == VarX(ts) * VarY(ts)
  {
    hide VarX, VarY;
    MulPositive(VarX(ts), VarY(ts));
    RootPositive(VarX(ts) * VarY(ts), sqrt);
  }

  ghost function Assess(ts: seq<Trade>, st: Settings, sqrt: real -> real): (real, nat)
    requires IsSquareRoot(sqrt) && st.Valid()
  {
    if |ts| < st.calibrationMinSamples then (st.reliabilityPrior, |ts|)
    else if NoSpread(ts, sqrt) then (st.reliabilityPrior, |ts|)
    else
      SpreadGivesRoot(ts, sqrt);
      (Min(1.0, Max(0.0, Correlation(ts, sqrt))), |ts|)
  }

  method ConvictionReliability(outcomes: seq<(Option<real>, Option<real>)>, st: Settings, sqrt: real -> real)
    returns (reliability: real, n: nat)
    requires IsSquareRoot(sqrt) && st.Valid()
    ensures (reliability, n) == Assess(Usable(outcomes), st, sqrt)
  {
    var usable: seq<Trade> := [];
    for i := 0 to |outcomes|
      invariant usable == Usable(outcomes[..i])
    {
      assert outcomes[..i + 1][..i] == outcomes[..i];
      if outcomes[i].0.Some? && outcomes[i].1.Some? {
        usable := usable + [(outcomes[i].0.value, outcomes[i].1.value)];
      }
    }
    assert outcomes[..|outcomes|] == outcomes;
    hide VarX, VarY, Correlation;
    n := |usable|;
    if n < st.calibrationMinSamples { return st.reliabilityPrior, n; }
    if Degenerate(VarX(usable), n, sqrt) || Degenerate(VarY(usable), n, sqrt) { return st.reliabilityPrior, n; }
    SpreadGivesRoot(usable, sqrt);
    reliability := Min(1.0, Max(0.0, Correlation(usable, sqrt)));
  }

  // ---- Cauchy-Schwarz -----------------------------------------------------

  /** The sum of squares of the deviations of x - t*y, from the three sums. */
  function Spread(vx: real, c: real, vy: real, t: real): real { vx - 2.0 * t * c + t * t * vy }

  lemma {:induction false} SpreadNonNegative(ts: seq<Trade>, mx: real, my: real, t: real)
    ensures Spread(Total(ts, SquareX(mx)), Total(ts, CrossDeviation(mx, my)), Total(ts, SquareY(my)), t) >= 0.0
  {
    if ts == [] {
    } else {
      hide Spread, Times;
      var front, last := ts[..|ts| - 1], ts[|ts| - 1];
      SpreadNonNegative(front, mx, my, t);
      SpreadStep(Total(front, SquareX(mx)), Total(front, CrossDeviation(mx, my)), Total(front, SquareY(my)),
                 last.0 - mx, last.1 - my, t);
    }
  }

  lemma SpreadStep(vx: real, c: real, vy: real, a: real, b: real, t: real)
    requires Spread(vx, c, vy, t) >= 0.0
    ensures Spread(vx + Times(a, a), c + Times(a, b), vy + Times(b, b), t) >= 0.0
  {
    var d := a - t * b;
    assert d * d >= 0.0;
    assert d * d == a * a - 2.0 * (t * (a * b)) + t * t * (b * b);
    assert 2.0 * t * (c + a * b) == 2.0 * t * c + 2.0 * (t * (a * b));
    assert t * t * (vy + b * b) == t * t * vy + t * t * (b * b);
  }

  lemma {:induction false} SquaresNonNegative(ts: seq<Trade>, my: real)
    ensures Total(ts, SquareY(my)) >= 0.0
  {
    if ts != [] {
      SquaresNonNegative(ts[..|ts| - 1], my);
      SquareNonNegative(ts[|ts| - 1].1 - my);
    }
  }

  lemma SquareNonNegative(d: real)
    ensures Times(d, d) >= 0.0
  {}

  /** Whatever the centres, the squared cross sum never exceeds the product of the two square sums. */
  lemma {:induction false} CauchySchwarz(ts: seq<Trade>, mx: real, my: real)
    ensures var c := Total(ts, CrossDeviation(mx, my));
            Times(c, c) <= Times(Total(ts, SquareX(mx)), Total(ts, SquareY(my)))
  {
    var vx, c, vy := Total(ts, SquareX(mx)), Total(ts, CrossDeviation(mx, my)), Total(ts, SquareY(my));
    hide Total;
    SquaresNonNegative(ts, my);
    if vy > 0.0 {
      SpreadNonNegative(ts, mx, my, c / vy);
      Discriminant(vx, c, vy, c / vy);
    } else if c != 0.0 {
      var t := (vx + 1.0) / (2.0 * c);
      SpreadNonNegative(ts, mx, my, t);
      SteepSlope(vx, c, t);
    }
  }

  /** With no spread in y, a non-zero cross sum would make some sum of squares negative. */
  lemma SteepSlope(vx: real, c: real, t: real)
    requires c != 0.0 && t == (vx + 1.0) / (2.0 * c)
    ensures Spread(vx, c, 0.0, t) == -1.0
  {
    assert t * (2.0 * c) == vx + 1.0;
    assert 2.0 * t * c == t * (2.0 * c);
    assert t * t * 0.0 == 0.0;
  }

  lemma Discriminant(vx: real, c: real, vy: real, t: real)
    requires vy > 0.0 && t * vy == c
    requires Spread(vx, c, vy, t) >= 0.0
    ensures c * c <= vx * vy
  {
    assert t * t * vy == t * c;
    assert vx - t * c >= 0.0;
    MulMonotone(0.0, vx - t * c, vy, vy);
    assert (vx - t * c) * vy == vx * vy - (t * vy) * c;
  }

  lemma CovarianceBounded(ts: seq<Trade>)
    requires ts != []
    ensures Cov(ts) * Cov(ts) <= VarX(ts) * VarY(ts)
  {
    hide Total;
    CauchySchwarz(ts, MeanX(ts), MeanY(ts));
  }

  /** In exact arithmetic the correlation lies in [-1, 1], so the upper clamp never changes it. */
  lemma CorrelationBounded(ts: seq<Trade>, sqrt: real -> real)
    requires IsSquareRoot(sqrt) && ts != [] && !NoSpread(ts, sqrt)
    ensures Denominator(ts, sqrt) > 0.0
    ensures -1.0 <= Correlation(ts, sqrt) <= 1.0
  {
    hide Cov, VarX, VarY, NoSpread, Denominator;
    SpreadGivesRoot(ts, sqrt);
    CovarianceBounded(ts);
    RatioBounded(Cov(ts), Denominator(ts, sqrt));
  }

  lemma RatioBounded(c: real, r: real)
    requires r > 0.0 && c * c <= r * r
    ensures -1.0 <= c / r <= 1.0
  {
    UpperRoot(c, r);
    UpperRoot(-c, r);
    var q := c / r;
    assert q * r == c;
    SignOfProduct(1.0 - q, r);
    SignOfProduct(q + 1.0, r);
    assert (1.0 - q) * r == r - c && (q + 1.0) * r == c + r;
  }

  lemma UpperRoot(c: real, r: real)
    requires r > 0.0 && c * c <= r * r
    ensures c <= r
  {
    if c > r {
      MulPositive(c - r, c);
      MulPositive(r, c - r);
    }
  }

  /** Above the sample floor and with real spread, the reliability is the correlation cut off at zero. */
  lemma ReliabilityIsPositivePart(ts: seq<Trade>, st: Settings, sqrt: real -> real)
    requires IsSquareRoot(sqrt) && st.Valid() && |ts| >= st.calibrationMinSamples && !NoSpread(ts, sqrt)
    ensures Denominator(ts, sqrt) > 0.0
    ensures Assess(ts, st, sqrt).0 == Max(0.0, Correlation(ts, sqrt)) <= 1.0
  {
    CorrelationBounded(ts, sqrt);
    hide VarX, VarY, Correlation, NoSpread;
  }

  // ---- Invariance ---------------------------------------------------------

  lemma {:induction false} TotalSplits(a: seq<Trade>, b: seq<Trade>, f: Trade -> real)
    ensures Total(a + b, f) == Total(a, f) + Total(b, f)
  {
    if b == [] {
      assert a + b == a;
    } else {
      assert (a + b)[..|a + b| - 1] == a + b[..|b| - 1];
      TotalSplits(a, b[..|b| - 1], f);
    }
  }

  lemma {:induction false} TotalIgnoresOrder(a: seq<Trade>, b: seq<Trade>, f: Trade -> real)
    requires multiset(a) == multiset(b)
    ensures Total(a, f) == Total(b, f)
  {
    if a == [] {
      assert |multiset(b)| == |b| == 0;
    } else {
      var k := TakeLast(a, b);
      var front, tail := b[..k], b[k + 1..];
      TotalIgnoresOrder(a[..|a| - 1], front + tail, f);
      assert b == front + ([b[k]] + tail);
      TotalSplits(front, [b[k]] + tail, f);
      TotalSplits([b[k]], tail, f);
      TotalSplits(front, tail, f);
      assert [b[k]][..0] == [];
    }
  }

  /** The order in which the trades closed does not matter. */
  lemma ReliabilityIgnoresOrder(a: seq<Trade>, b: seq<Trade>, st: Settings, sqrt: real -> real)
    requires IsSquareRoot(sqrt) && st.Valid() && multiset(a) == multiset(b)
    ensures Assess(a, st, sqrt) == Assess(b, st, sqrt)
  {
    assert |a| == |multiset(a)| == |multiset(b)| == |b|;
    if |a| >= st.calibrationMinSamples {
      hide VarX, VarY, Cov, Times;
      SumsIgnoreOrder(a, b);
      assert Denominator(a, sqrt) == Denominator(b, sqrt);
      assert NoSpread(a, sqrt) == NoSpread(b, sqrt);
      if !NoSpread(a, sqrt) {
        SpreadGivesRoot(a, sqrt);
        assert Correlation(a, sqrt) == Correlation(b, sqrt);
      }
      hide NoSpread, Correlation;
    }
  }

  lemma SumsIgnoreOrder(a: seq<Trade>, b: seq<Trade>)
    requires multiset(a) == multiset(b) && a != [] && b != [] && |a| == |b|
    ensures VarX(a) == VarX(b) && VarY(a) == VarY(b) && Cov(a) == Cov(b)
  {
    TotalIgnoresOrder(a, b, First());
    TotalIgnoresOrder(a, b, Second());
    TotalIgnoresOrder(a, b, SquareX(MeanX(a)));
    TotalIgnoresOrder(a, b, SquareY(MeanY(a)));
    TotalIgnoresOrder(a, b, CrossDeviation(MeanX(a), MeanY(a)));
  }

  /** A profit stated in other units. */
  function Rescale(y: real, scale: real, shift: real): real { scale * y + shift }

  function Rescaled(ts: seq<Trade>, scale: real, shift: real): (r: seq<Trade>)
    ensures |r| == |ts| && forall i :: 0 <= i < |r| ==> r[i] == (ts[i].0, Rescale(ts[i].1, scale, shift))
  {
    seq(|ts|, i requires 0 <= i < |ts| => (ts[i].0, Rescale(ts[i].1, scale, shift)))
  }

  /** A sum whose every term is `a` times another's plus `b`. */
  lemma {:induction false} LinearTotal(ts: seq<Trade>, rs: seq<Trade>,
                                       f: Trade -> real, g: Trade -> real, a: real, b: real)
    requires |rs| == |ts| && forall i :: 0 <= i < |ts| ==> g(rs[i]) == Times(a, f(ts[i])) + b
    ensures Total(rs, g) == Times(a, Total(ts, f)) + Times(b, |ts| as real)
  {
    if ts == [] {
    } else {
      hide Times;
      var last := |ts| - 1;
      LinearTotal(ts[..last], rs[..last], f, g, a, b);
      LinearStep(a, b, Total(ts[..last], f), f(ts[last]), last as real, |ts| as real);
    }
  }

  lemma LinearStep(a: real, b: real, sum: real, x: real, n: real, m: real)
    requires m == n + 1.0
    ensures Times(a, sum + x) + Times(b, m) == Times(a, sum) + Times(b, n) + (Times(a, x) + b)
  {
    assert a * (sum + x) == a * sum + a * x;
    assert b * (n + 1.0) == b * n + b;
  }

  lemma NoShift(a: real, n: real)
    ensures Times(0.0, n) == 0.0 && Times(1.0, a) == a
  {}

  /** One rescaled deviation, squared and crossed. */
  lemma RescaledTerm(dx: real, y: real, my: real, scale: real, shift: real)
    ensures var d := Rescale(y, scale, shift) - Rescale(my, scale, shift);
            && Times(d, d) == Times(Times(scale, scale), Times(y - my, y - my))
            && Times(dx, d) == Times(scale, Times(dx, y - my))
    ensures Rescale(y, scale, shift) == Times(scale, y) + shift
  {
    var d, e := Rescale(y, scale, shift) - Rescale(my, scale, shift), y - my;
    assert d == scale * e;
    assert d * d == (scale * scale) * (e * e);
    assert dx * d == scale * (dx * e);
  }

  lemma {:induction false} RescaledSums(ts: seq<Trade>, scale: real, shift: real, mx: real, my: real)
    ensures var rs := Rescaled(ts, scale, shift);
            && Total(rs, First()) == Total(ts, First())
            && Total(rs, Second()) == Times(scale, Total(ts, Second())) + Times(shift, |ts| as real)
            && Total(rs, SquareX(mx)) == Total(ts, SquareX(mx))
            && Total(rs, SquareY(Rescale(my, scale, shift))) == Times(Times(scale, scale), Total(ts, SquareY(my)))
            && Total(rs, CrossDeviation(mx, Rescale(my, scale, shift))) == Times(scale, Total(ts, CrossDeviation(mx, my)))
  {
    hide Times, Total, Rescale;
    var rs, n := Rescaled(ts, scale, shift), |ts| as real;
    forall i | 0 <= i < |ts|
      ensures var d := Rescale(ts[i].1, scale, shift) - Rescale(my, scale, shift);
              && Times(d, d) == Times(Times(scale, scale), Times(ts[i].1 - my, ts[i].1 - my))
              && Times(ts[i].0 - mx, d) == Times(scale, Times(ts[i].0 - mx, ts[i].1 - my))
      ensures Rescale(ts[i].1, scale, shift) == Times(scale, ts[i].1) + shift
    {
      RescaledTerm(ts[i].0 - mx, ts[i].1, my, scale, shift);
    }
    forall x ensures Times(0.0, x) == 0.0 && Times(1.0, x) == x { NoShift(x, x); }
    LinearTotal(ts, rs, First(), First(), 1.0, 0.0);
    LinearTotal(ts, rs, Second(), Second(), scale, shift);
    LinearTotal(ts, rs, SquareX(mx), SquareX(mx), 1.0, 0.0);
    LinearTotal(ts, rs, SquareY(my), SquareY(Rescale(my, scale, shift)), Times(scale, scale), 0.0);
    LinearTotal(ts, rs, CrossDeviation(mx, my), CrossDeviation(mx, Rescale(my, scale, shift)), scale, 0.0);
  }

  lemma RescaledMeans(ts: seq<Trade>, scale: real, shift: real)
    requires ts != []
    ensures var rs := Rescaled(ts, scale, shift);
            MeanX(rs) == MeanX(ts) && MeanY(rs) == Rescale(MeanY(ts), scale, shift)
  {
    RescaledSums(ts, scale, shift, 0.0, 0.0);
    hide Total;
    RescaledQuotient(Total(ts, Second()), |ts| as real, scale, shift);
  }

  lemma RescaledQuotient(s: real, n: real, scale: real, shift: real)
    requires n > 0.0
    ensures (Times(scale, s) + Times(shift, n)) / n == Rescale(s / n, scale, shift)
  {
    var m := s / n;
    assert m * n == s;
    assert (scale * m + shift) * n == scale * (m * n) + shift * n;
    QuotientIs(scale * s + shift * n, n, scale * m + shift);
  }

  lemma RescaledMoments(ts: seq<Trade>, scale: real, shift: real)
    requires ts != []
    ensures var rs := Rescaled(ts, scale, shift);
            && VarX(rs) == VarX(ts)
            && VarY(rs) == Times(Times(scale, scale), VarY(ts))
            && Cov(rs) == Times(scale, Cov(ts))
  {
    hide Times, Rescale, Total, MeanX, MeanY;
    RescaledMeans(ts, scale, shift);
    RescaledSums(ts, scale, shift, MeanX(ts), MeanY(ts));
  }

  lemma QuotientIs(x: real, d: real, q: real)
    requires d > 0.0 && q * d == x
    ensures x / d == q
  {
    var p := x / d;
    assert (p - q) * d == 0.0;
    SignOfProduct(p - q, d);
    SignOfProduct(q - p, d);
  }

  /** Scaling profits up or down, or shifting them, leaves the correlation alone while both series keep their spread. */
  lemma CorrelationIgnoresUnits(ts: seq<Trade>, scale: real, shift: real, sqrt: real -> real)
    requires IsSquareRoot(sqrt) && ts != [] && scale > 0.0
    requires !NoSpread(ts, sqrt) && !NoSpread(Rescaled(ts, scale, shift), sqrt)
    ensures var rs := Rescaled(ts, scale, shift);
            && Denominator(ts, sqrt) > 0.0 && Denominator(rs, sqrt) > 0.0
            && Correlation(rs, sqrt) == Correlation(ts, sqrt)
  {
    hide VarX, VarY, Cov, NoSpread, Rescaled, Times, Denominator;
    var rs := Rescaled(ts, scale, shift);
    SpreadGivesRoot(ts, sqrt);
    SpreadGivesRoot(rs, sqrt);
    RescaledMoments(ts, scale, shift);
    SameRatio(Cov(ts), VarX(ts), VarY(ts), scale, Denominator(ts, sqrt), Denominator(rs, sqrt));
  }

  lemma SameRatio(c: real, vx: real, vy: real, scale: real, r: real, s: real)
    requires scale > 0.0 && r > 0.0 && s > 0.0
    requires r * r == vx * vy && s * s == vx * Times(Times(scale, scale), vy)
    ensures Times(scale, c) / s == c / r
  {
    assert s * s == scale * scale * (vx * vy);
    SameRoot(s, scale, r, vx * vy);
    var q := c / r;
    assert q * r == c;
    assert q * (scale * r) == scale * (q * r);
    QuotientIs(scale * c, s, q);
  }

  lemma SameRoot(s: real, scale: real, r: real, v: real)
    requires s > 0.0 && scale > 0.0 && r > 0.0 && r * r == v && s * s == scale * scale * v
    ensures s == scale * r
  {
    var t := scale * r;
    MulPositive(scale, r);
    assert t * t == scale * scale * (r * r);
    assert (s - t) * (s + t) == s * s - t * t == 0.0;
    SignOfProduct(s - t, s + t);
    assert (t - s) * (s + t) == 0.0;
    SignOfProduct(t - s, s + t);
  }

  lemma ReliabilityIgnoresUnits(ts: seq<Trade>, scale: real, shift: real, st: Settings, sqrt: real -> real)
    requires IsSquareRoot(sqrt) && st.Valid() && scale > 0.0 && ts != []
    requires !NoSpread(ts, sqrt) && !NoSpread(Rescaled(ts, scale, shift), sqrt)
    ensures Assess(Rescaled(ts, scale, shift), st, sqrt) == Assess(ts, st, sqrt)
  {
    CorrelationIgnoresUnits(ts, scale, shift, sqrt);
    hide Correlation, NoSpread, VarX, VarY, Rescaled;
  }

  // ---- What it comes to ---------------------------------------------------

  /** Profits that are one straight line of the conviction. */
  ghost predicate OnALine(ts: seq<Trade>, slope: real, base: real) {
    forall i :: 0 <= i < |ts| ==> ts[i].1 == Rescale(ts[i].0, slope, base)
  }

  lemma LineMean(ts: seq<Trade>, slope: real, base: real)
    requires ts != [] && OnALine(ts, slope, base)
    ensures MeanY(ts) == Rescale(MeanX(ts), slope, base)
  {
    hide Total;
    LinearTotal(ts, ts, First(), Second(), slope, base);
    RescaledQuotient(Total(ts, First()), |ts| as real, slope, base);
  }

  lemma LineMoments(ts: seq<Trade>, slope: real, base: real)
    requires ts != [] && OnALine(ts, slope, base)
    ensures VarY(ts) == Times(Times(slope, slope), VarX(ts)) && Cov(ts) == Times(slope, VarX(ts))
  {
    hide Total, MeanX, MeanY, Times, Rescale;
    LineMean(ts, slope, base);
    var mx, my := MeanX(ts), MeanY(ts);
    forall i | 0 <= i < |ts|
      ensures Times(ts[i].1 - my, ts[i].1 - my) == Times(Times(slope, slope), Times(ts[i].0 - mx, ts[i].0 - mx))
      ensures Times(ts[i].0 - mx, ts[i].1 - my) == Times(slope, Times(ts[i].0 - mx, ts[i].0 - mx))
    {
      RescaledTerm(ts[i].0 - mx, ts[i].0, mx, slope, base);
    }
    NoShift(0.0, |ts| as real);
    LinearTotal(ts, ts, SquareX(mx), SquareY(my), Times(slope, slope), 0.0);
    LinearTotal(ts, ts, SquareX(mx), CrossDeviation(mx, my), slope, 0.0);
  }

  /** Conviction that foretells profit exactly is fully reliable, and one that foretells it backwards not at all. */
  lemma StraightLineIsForetold(ts: seq<Trade>, slope: real, base: real, st: Settings, sqrt: real -> real)
    requires IsSquareRoot(sqrt) && st.Valid() && |ts| >= st.calibrationMinSamples && !NoSpread(ts, sqrt)
    requires OnALine(ts, slope, base)
    ensures slope != 0.0 && Assess(ts, st, sqrt) == (if slope > 0.0 then 1.0 else 0.0, |ts|)
  {
    hide VarX, VarY, Cov, NoSpread, Denominator, Times, OnALine;
    SpreadGivesRoot(ts, sqrt);
    LineMoments(ts, slope, base);
    SignedRatio(slope, VarX(ts), Cov(ts), VarY(ts), Denominator(ts, sqrt));
    ReliabilityIsPositivePart(ts, st, sqrt);
    assert Correlation(ts, sqrt) == if slope > 0.0 then 1.0 else -1.0;
  }

  lemma SignedRatio(slope: real, vx: real, c: real, vy: real, r: real)
    requires vx > 0.0 && vy > 0.0 && r > 0.0 && r * r == vx * vy
    requires vy == Times(Times(slope, slope), vx) && c == Times(slope, vx)
    ensures slope != 0.0 && c / r == if slope > 0.0 then 1.0 else -1.0
  {
    assert c * c == slope * slope * (vx * vx) == r * r;
    if slope > 0.0 {
      MulPositive(slope, vx);
      EqualRoots(c, r);
      QuotientIs(c, r, 1.0);
    } else if slope < 0.0 {
      MulPositive(-slope, vx);
      EqualRoots(-c, r);
      QuotientIs(c, r, -1.0);
    }
  }

  lemma EqualRoots(a: real, b: real)
    requires a > 0.0 && b > 0.0 && a * a == b * b
    ensures a == b
  {
    UpperRoot(a, b);
    UpperRoot(b, a);
  }

  lemma {:induction false} SameConvictionTotals(ts: seq<Trade>, x: real)
    requires forall t :: t in ts ==> t.0 == x
    ensures Total(ts, First()) == x * |ts| as real && Total(ts, SquareX(x)) == 0.0
  {
    if ts != [] {
      SameConvictionTotals(ts[..|ts| - 1], x);
      assert ts[|ts| - 1] in ts;
      assert x * (|ts| - 1) as real + x == x * |ts| as real;
    }
  }

  /** Convictions that never differ say nothing: the prior stands, however many trades there are. */
  lemma SameConvictionKeepsPrior(ts: seq<Trade>, x: real, st: Settings, sqrt: real -> real)
    requires IsSquareRoot(sqrt) && st.Valid() && forall t :: t in ts ==> t.0 == x
    ensures Assess(ts, st, sqrt) == (st.reliabilityPrior, |ts|)
  {
    if |ts| >= st.calibrationMinSamples && ts != [] {
      SameConvictionTotals(ts, x);
      QuotientIs(Total(ts, First()), |ts| as real, x);
      assert MeanX(ts) == x && VarX(ts) == 0.0;
    }
  }

  /** Too little spread is a variance below the square of a billionth, in either series. */
  lemma TooLittleSpreadIff(ts: seq<Trade>, sqrt: real -> real)
    requires IsSquareRoot(sqrt) && ts != []
    ensures NoSpread(ts, sqrt)
       <==> VarX(ts) / |ts| as real < 0.000000000000000001 || VarY(ts) / |ts| as real < 0.000000000000000001
  {
    SmallRootIff(VarX(ts), |ts|, sqrt);
    SmallRootIff(VarY(ts), |ts|, sqrt);
    hide VarX, VarY, Degenerate;
  }

  lemma SmallRootIff(variance: real, n: nat, sqrt: real -> real)
    requires IsSquareRoot(sqrt) && n > 0
    ensures Degenerate(variance, n, sqrt) <==> variance / n as real < 0.000000000000000001
  {
    var v := variance / n as real;
    assert v * n as real == variance;
    SignOfProduct(v, n as real);
    SignOfProduct(-v, n as real);
    if variance > 0.0 {
      var r := sqrt(v);
      assert r >= 0.0 && r * r == v;
      SquareBelowIff(r, 0.000000001);
    }
  }

  lemma SquareBelowIff(r: real, s: real)
    requires r >= 0.0 && s > 0.0
    ensures r < s <==> r * r < s * s
  {
    assert (s - r) * (r + s) == s * s - r * r;
    SignOfProduct(s - r, r + s);
    SignOfProduct(r - s, r + s);
    assert (r - s) * (r + s) == r * r - s * s;
  }

  /** Exactly the outcomes with both a conviction and a profit are used, in order. */
  lemma {:induction false} UsableSkipsTheUnread(a: seq<(Option<real>, Option<real>)>, b: seq<(Option<real>, Option<real>)>,
                                                x: real, y: real)
    ensures Usable(a + b) == Usable(a) + Usable(b)
    ensures Usable([(Some(x), Some(y))]) == [(x, y)]
    ensures Usable([(None, Some(y))]) == Usable([(Some(x), None)]) == Usable([(None, None)]) == []
  {
    assert [(Some(x), Some(y))][..0] == [] && [(Option<real>.None, Some(y))][..0] == [];
    assert [(Some(x), Option<real>.None)][..0] == [] && [(Option<real>.None, Option<real>.None)][..0] == [];
    if b == [] {
      assert a + b == a;
    } else {
      var front := b[..|b| - 1];
      UsableSkipsTheUnread(a, front, x, y);
      assert (a + b)[..|a + b| - 1] == a + front && (a + b)[|a + b| - 1] == b[|b| - 1];
    }
  }
}
