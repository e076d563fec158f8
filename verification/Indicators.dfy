/** Wilder's RSI and ATR over raw series. */
module Indicators {
  import opened Models
  import opened Reals

  /** The readable values of a series, in order. */
  function Finite<T>(values: seq<Option<T>>): seq<T> {
    if values == [] then []
    else if values[|values| - 1].None? then Finite(values[..|values| - 1])
    else Finite(values[..|values| - 1]) + [values[|values| - 1].value]
  }

  method CollectFinite<T>(values: seq<Option<T>>) returns (xs: seq<T>)
    ensures xs == Finite(values)
  {
    xs := [];
    for i := 0 to |values|
      invariant xs == Finite(values[..i])
    {
      assert values[..i + 1][..i] == values[..i];
      if values[i].Some? { xs := xs + [values[i].value]; }
    }
    assert values[..|values|] == values;
  }

  function Sum(xs: seq<real>): real {
    if xs == [] then 0.0 else Sum(xs[..|xs| - 1]) + xs[|xs| - 1]
  }

  function Smooth(value: real, x: real, period: nat): real
    requires period > 0
  {
    (value * (period - 1) as real + x) / period as real
  }

  /** Wilder's running average of `xs` from a seed. */
  function Wilder(seed: real, xs: seq<real>, period: nat): real
    requires period > 0
  {
    if xs == [] then seed else Smooth(Wilder(seed, xs[..|xs| - 1], period), xs[|xs| - 1], period)
  }

  /** The mean of the first `period` values. */
  function Seed(xs: seq<real>, period: nat): real
    requires 0 < period <= |xs|
  {
    Sum(xs[..period]) / period as real
  }

  /** The seed is the mean of the first `period` values; the rest are smoothed in. */
  function Average(xs: seq<real>, period: nat): real
    requires 0 < period <= |xs|
  {
    Wilder(Seed(xs, period), xs[period..], period)
  }

  lemma {:induction false} WilderNext(seed: real, xs: seq<real>, from: nat, i: nat, period: nat)
    requires period > 0 && from <= i < |xs|
    ensures Wilder(seed, xs[from..i + 1], period) == Smooth(Wilder(seed, xs[from..i], period), xs[i], period)
  {
    assert xs[from..i + 1][..i - from] == xs[from..i];
  }

  // ---- RSI ----------------------------------------------------------------

  function Gains(xs: seq<real>): (r: seq<real>)
    requires xs != []
    ensures |r| == |xs| - 1 && forall i :: 0 <= i < |r| ==> r[i] == Max(xs[i + 1] - xs[i], 0.0)
  {
    seq(|xs| - 1, i requires 0 <= i < |xs| - 1 => Max(xs[i + 1] - xs[i], 0.0))
  }

  function Losses(xs: seq<real>): (r: seq<real>)
    requires xs != []
    ensures |r| == |xs| - 1 && forall i :: 0 <= i < |r| ==> r[i] == Max(-(xs[i + 1] - xs[i]), 0.0)
  {
    seq(|xs| - 1, i requires 0 <= i < |xs| - 1 => Max(-(xs[i + 1] - xs[i]), 0.0))
  }

  // ---- Averages stay within their data ------------------------------------

  predicate Within(xs: seq<real>, lo: real, hi: real) { forall i :: 0 <= i < |xs| ==> lo <= xs[i] <= hi }

  lemma SmoothBetween(value: real, x: real, period: nat, lo: real, hi: real)
    requires period > 0 && lo <= value <= hi && lo <= x <= hi
    ensures lo <= Smooth(value, x, period) <= hi
  {
    var k, p := (period - 1) as real, period as real;
    assert p == k + 1.0;
    SmoothedSum(value, x, k, lo, hi);
    QuotientBetween(value * k + x, p, lo, hi);
  }

  lemma SmoothedSum(value: real, x: real, k: real, lo: real, hi: real)
    requires k >= 0.0 && lo <= value <= hi && lo <= x <= hi
    ensures lo * (k + 1.0) <= value * k + x <= hi * (k + 1.0)
  {
    MulMonotone(0.0, value - lo, k, k);
    MulMonotone(0.0, hi - value, k, k);
    assert (value - lo) * k == value * k - lo * k;
    assert (hi - value) * k == hi * k - value * k;
    assert lo * (k + 1.0) == lo * k + lo && hi * (k + 1.0) == hi * k + hi;
  }

  lemma QuotientBetween(n: real, d: real, lo: real, hi: real)
    requires d > 0.0 && lo * d <= n <= hi * d
    ensures lo <= n / d <= hi
  {
    var q := n / d;
    assert q * d == n;
    assert (q - lo) * d == n - lo * d && (hi - q) * d == hi * d - n;
    SignOfProduct(q - lo, d);
    SignOfProduct(hi - q, d);
  }

  lemma {:induction false} WilderBetween(seed: real, xs: seq<real>, period: nat, lo: real, hi: real)
    requires period > 0 && lo <= seed <= hi
    requires Within(xs, lo, hi)
    ensures lo <= Wilder(seed, xs, period) <= hi
  {
    hide Smooth;
    if xs != [] {
      WilderBetween(seed, xs[..|xs| - 1], period, lo, hi);
      SmoothBetween(Wilder(seed, xs[..|xs| - 1], period), xs[|xs| - 1], period, lo, hi);
    }
  }

  lemma {:induction false} SumBetween(xs: seq<real>, lo: real, hi: real)
    requires Within(xs, lo, hi)
    ensures lo * |xs| as real <= Sum(xs) <= hi * |xs| as real
  {
    if xs != [] {
      var n := (|xs| - 1) as real;
      SumBetween(xs[..|xs| - 1], lo, hi);
      OneMoreTerm(lo, hi, n, |xs| as real, Sum(xs[..|xs| - 1]), xs[|xs| - 1]);
    }
  }

  lemma OneMoreTerm(lo: real, hi: real, n: real, m: real, sum: real, x: real)
    requires m == n + 1.0 && lo * n <= sum <= hi * n && lo <= x <= hi
    ensures lo * m <= sum + x <= hi * m
  {
    var low, high := lo * n, hi * n;
    assert lo * (n + 1.0) == low + lo;
    assert hi * (n + 1.0) == high + hi;
  }

  /** An average never leaves the range of its values. */
  lemma AverageBetween(xs: seq<real>, period: nat, lo: real, hi: real)
    requires 0 < period <= |xs|
    requires Within(xs, lo, hi)
    ensures lo <= Average(xs, period) <= hi
  {
    hide Smooth;
    SumBetween(xs[..period], lo, hi);
    QuotientBetween(Sum(xs[..period]), period as real, lo, hi);
    WilderBetween(Seed(xs, period), xs[period..], period, lo, hi);
  }

  /** A bound above every value. */
  function Ceiling(xs: seq<real>): (r: real)
    ensures r >= 0.0 && forall i :: 0 <= i < |xs| ==> xs[i] <= r
  {
    if xs == [] then 0.0 else Max(Ceiling(xs[..|xs| - 1]), xs[|xs| - 1])
  }

  lemma NonNegativeAverages(xs: seq<real>, period: nat)
    requires 0 < period < |xs|
    ensures Average(Gains(xs), period) >= 0.0 && Average(Losses(xs), period) >= 0.0
  {
    hide Average;
    AverageBetween(Gains(xs), period, 0.0, Ceiling(Gains(xs)));
    AverageBetween(Losses(xs), period, 0.0, Ceiling(Losses(xs)));
  }

  lemma RatioPositive(gain: real, loss: real)
    requires gain >= 0.0 && loss > 0.0
    ensures 1.0 + gain / loss >= 1.0
  {
    DivMonotone(0.0, gain, loss);
  }

  /** Not both zero: the index is the gains' share of all movement. */
  lemma IndexIsShare(gain: real, loss: real)
    requires gain >= 0.0 && loss >= 0.0
    ensures 0.0 <= Index(gain, loss) <= 100.0
    ensures gain + loss > 0.0 ==> Index(gain, loss) == 100.0 * gain / (gain + loss)
  {
    if loss > 0.0 {
      RatioPositive(gain, loss);
      var rs := gain / loss;
      var share := 100.0 / (1.0 + rs);
      assert rs * loss == gain;
      assert share * (1.0 + rs) == 100.0;
      assert (1.0 + rs) * loss == loss + gain;
      assert share * (gain + loss) == 100.0 * loss by {
        assert share * ((1.0 + rs) * loss) == (share * (1.0 + rs)) * loss;
      }
      Quotient(100.0 - share, gain + loss, 100.0 * gain);
      QuotientBetween(100.0 * gain, gain + loss, 0.0, 100.0);
    } else if gain > 0.0 {
      Quotient(100.0, gain, 100.0 * gain);
    }
  }

  lemma Quotient(q: real, d: real, n: real)
    requires d > 0.0 && q * d == n
    ensures n / d == q
  {
    var x := n / d;
    assert (x - q) * d == 0.0;
    SignOfProduct(x - q, d);
    SignOfProduct(q - x, d);
  }

  // ---- The index ------------------------------------------------------------

  /** The index from its two averages. */
  function Index(gain: real, loss: real): real
    requires gain >= 0.0 && loss >= 0.0
  {
    if loss == 0.0 then (if gain > 0.0 then 100.0 else 50.0)
    else
      RatioPositive(gain, loss);
      100.0 - 100.0 / (1.0 + gain / loss)
  }

  function Rsi(xs: seq<real>, period: int): Option<real> {
    if period <= 0 || |xs| < period + 1 then None
    else
      NonNegativeAverages(xs, period);
      Some(Index(Average(Gains(xs), period), Average(Losses(xs), period)))
  }

  /** Upward and downward moves between consecutive values. */
  method Moves(xs: seq<real>) returns (gains: seq<real>, losses: seq<real>)
    requires xs != []
    ensures gains == Gains(xs) && losses == Losses(xs)
  {
    gains, losses := [], [];
    for i := 1 to |xs|
      invariant gains == Gains(xs)[..i - 1] && losses == Losses(xs)[..i - 1]
    {
      var change := xs[i] - xs[i - 1];
      gains := gains + [Max(change, 0.0)];
      losses := losses + [Max(-change, 0.0)];
    }
  }

  /** The seed, then one smoothing step per later value. */
  method RunningAverage(xs: seq<real>, period: nat) returns (value: real)
    requires 0 < period <= |xs|
    ensures value == Average(xs, period)
  {
    hide Smooth, Seed, Wilder;
    ghost var seed := Seed(xs, period);
    value := Seed(xs, period);
    WilderStart(seed, xs, period);
    for i := period to |xs|
      invariant value == Wilder(seed, xs[period..i], period)
    {
      WilderNext(seed, xs, period, i, period);
      value := Smooth(value, xs[i], period);
    }
    assert xs[period..|xs|] == xs[period..];
  }

  lemma {:induction false} WilderStart(seed: real, xs: seq<real>, period: nat)
    requires 0 < period <= |xs|
    ensures Wilder(seed, xs[period..period], period) == seed
  {}

  method ComputeRsi(values: seq<Option<real>>, period: int) returns (r: Option<real>)
    ensures r == Rsi(Finite(values), period)
  {
    hide Smooth, Seed, Wilder;
    var xs := CollectFinite(values);
    if period <= 0 || |xs| < period + 1 { return None; }

    var gains, losses := Moves(xs);
    var gain := RunningAverage(gains, period);
    var loss := RunningAverage(losses, period);
    NonNegativeAverages(xs, period);
    hide Average, Gains, Losses, Finite;
    if loss == 0.0 { return Some(if gain > 0.0 then 100.0 else 50.0); }
    RatioPositive(gain, loss);
    var rs := gain / loss;
    r := Some(100.0 - 100.0 / (1.0 + rs));
  }

  // ---- The two promises about RSI -----------------------------------------

  /** Always between 0 and 100, and the gains' share of the two Wilder averages when something moved. */
  lemma RsiIsTheGainShare(xs: seq<real>, period: int)
    requires Rsi(xs, period).Some?
    ensures 0.0 <= Rsi(xs, period).value <= 100.0
    ensures var (g, l) := (Average(Gains(xs), period), Average(Losses(xs), period));
            && g >= 0.0 && l >= 0.0
            && Rsi(xs, period).value == if g + l > 0.0 then 100.0 * g / (g + l) else 50.0
  {
    hide Average, Index;
    NonNegativeAverages(xs, period);
    IndexIsShare(Average(Gains(xs), period), Average(Losses(xs), period));
    IndexWhenFlat();
  }

  lemma IndexWhenFlat()
    ensures Index(0.0, 0.0) == 50.0
  {}

  function Mirrored(xs: seq<real>, c: real): (r: seq<real>)
    ensures |r| == |xs| && forall i :: 0 <= i < |r| ==> r[i] == c - xs[i]
  {
    seq(|xs|, i requires 0 <= i < |xs| => c - xs[i])
  }

  /** Turning the series upside down turns the index upside down, flat and one-sided series included. */
  lemma RsiMirrors(xs: seq<real>, c: real, period: int)
    ensures Rsi(Mirrored(xs, c), period)
         == if Rsi(xs, period).None? then None else Some(100.0 - Rsi(xs, period).value)
  {
    if 0 < period < |xs| {
      RsiIsIndex(xs, period);
      RsiIsIndex(Mirrored(xs, c), period);
      MirrorSwapsMoves(xs, c);
      NonNegativeAverages(xs, period);
      IndexMirrors(Average(Gains(xs), period), Average(Losses(xs), period));
      hide *;
    }
  }

  lemma RsiIsIndex(xs: seq<real>, period: int)
    requires 0 < period < |xs|
    ensures Average(Gains(xs), period) >= 0.0 && Average(Losses(xs), period) >= 0.0
    ensures Rsi(xs, period) == Some(Index(Average(Gains(xs), period), Average(Losses(xs), period)))
  {
    NonNegativeAverages(xs, period);
    hide Average, Gains, Losses, Index;
  }

  lemma MirrorSwapsMoves(xs: seq<real>, c: real)
    requires xs != []
    ensures Gains(Mirrored(xs, c)) == Losses(xs) && Losses(Mirrored(xs, c)) == Gains(xs)
  {}

  lemma IndexMirrors(g: real, l: real)
    requires g >= 0.0 && l >= 0.0
    ensures Index(l, g) == 100.0 - Index(g, l)
  {
    IndexIsShare(g, l);
    IndexIsShare(l, g);
    if g + l > 0.0 { SharesAddUp(g, l); hide Index; }
  }

  lemma SharesAddUp(g: real, l: real)
    requires g + l > 0.0
    ensures 100.0 * g / (g + l) + 100.0 * l / (l + g) == 100.0
  {
    var d := g + l;
    var p, q := 100.0 * g / d, 100.0 * l / d;
    assert p * d == 100.0 * g && q * d == 100.0 * l;
    assert (p + q) * d == p * d + q * d;
    Quotient(p + q, d, 100.0 * d);
    Quotient(100.0, d, 100.0 * d);
  }

  // ---- ATR ----------------------------------------------------------------

  datatype Bar = Bar(high: real, low: real, close: real)

  function TrueRange(prev: Bar, bar: Bar): real {
    Max(Max(bar.high - bar.low, Abs(bar.high - prev.close)), Abs(bar.low - prev.close))
  }

  function TrueRanges(rows: seq<Bar>): (r: seq<real>)
    requires rows != []
    ensures |r| == |rows| - 1 && forall i :: 0 <= i < |r| ==> r[i] == TrueRange(rows[i], rows[i + 1])
  {
    seq(|rows| - 1, i requires 0 <= i < |rows| - 1 => TrueRange(rows[i], rows[i + 1]))
  }

  function Atr(rows: seq<Bar>, period: int): Option<real> {
    if period <= 0 || |rows| < period + 1 then None else Some(Average(TrueRanges(rows), period))
  }

  method ComputeAtr(bars: seq<Option<Bar>>, period: int) returns (r: Option<real>)
    ensures r == Atr(Finite(bars), period)
  {
    hide Smooth, Seed;
    var rows := CollectFinite(bars);
    if period <= 0 || |rows| < period + 1 { return None; }

    var ranges: seq<real> := [];
    for i := 1 to |rows|
      invariant ranges == TrueRanges(rows)[..i - 1]
    {
      ranges := ranges + [TrueRange(rows[i - 1], rows[i])];
    }
    assert ranges == TrueRanges(rows);
    hide TrueRanges;

    var value := RunningAverage(ranges, period);
    r := Some(value);
  }

  /** The ATR lies between some true range and another: within the smallest and the largest of them. */
  lemma AtrWithinTrueRanges(rows: seq<Bar>, period: int, lo: real, hi: real)
    requires Atr(rows, period).Some?
    requires Within(TrueRanges(rows), lo, hi)
    ensures lo <= Atr(rows, period).value <= hi
  {
    AverageBetween(TrueRanges(rows), period, lo, hi);
  }

  // ---- The weights --------------------------------------------------------

  /** Each step keeps all but one part in `period` of the average and takes one part of the new value. */
  lemma SmoothingWeights(value: real, x: real, period: nat)
    requires period > 0
    ensures Smooth(value, x, period) * period as real == value * (period - 1) as real + x
    ensures (Smooth(value, x, period) - value) * period as real == x - value
  {
    var p := period as real;
    var next := Smooth(value, x, period);
    assert next * p == value * (p - 1.0) + x;
    assert (next - value) * p == next * p - value * p;
  }

  /** The average starts as the mean of the first `period` values, and one more value smooths it once. */
  lemma AverageGrows(xs: seq<real>, period: nat, x: real)
    requires 0 < period <= |xs|
    ensures Average(xs[..period], period) * period as real == Sum(xs[..period])
    ensures Average(xs + [x], period) == Smooth(Average(xs, period), x, period)
  {
    hide Smooth;
    var first, longer := xs[..period], xs + [x];
    assert first[..period] == first && first[period..] == [];
    assert longer[..period] == xs[..period] && longer[period..] == xs[period..] + [x];
    assert (xs[period..] + [x])[..|xs| - period] == xs[period..];
    assert Sum(first) / period as real * period as real == Sum(first);
  }

  /** The sum adds every value once. */
  lemma {:induction false} SumGrows(xs: seq<real>, x: real)
    ensures Sum([]) == 0.0 && Sum(xs + [x]) == Sum(xs) + x
  {
    assert (xs + [x])[..|xs|] == xs;
  }

  /** The true range is the largest of the bar's own range and its two reaches from the previous close. */
  lemma TrueRangeIsLargest(prev: Bar, bar: Bar)
    ensures var r := TrueRange(prev, bar);
            && r >= bar.high - bar.low && r >= Abs(bar.high - prev.close) && r >= Abs(bar.low - prev.close)
            && (r == bar.high - bar.low || r == Abs(bar.high - prev.close) || r == Abs(bar.low - prev.close))
  {}

  /** There is an index, and a range, exactly from one value more than the period on. */
  lemma EnoughValuesIff(xs: seq<real>, rows: seq<Bar>, period: int)
    ensures Rsi(xs, period).Some? <==> 0 < period < |xs|
    ensures Atr(rows, period).Some? <==> 0 < period < |rows|
  {
    hide Average, Index;
  }

  /** Exactly the unreadable values are skipped, and the rest keep their order. */
  lemma {:induction false} FiniteSkipsTheUnread<T>(a: seq<Option<T>>, b: seq<Option<T>>, x: T)
    ensures Finite(a + b) == Finite(a) + Finite(b)
    ensures Finite([Some(x)]) == [x] && Finite<T>([None]) == []
  {
    assert [Some(x)][..0] == [] && Finite<T>([]) == [];
    assert [Option<T>.None][..0] == [];
    if b == [] {
      assert a + b == a;
    } else {
      var front := b[..|b| - 1];
      FiniteSkipsTheUnread(a, front, x);
      assert (a + b)[..|a + b| - 1] == a + front && (a + b)[|a + b| - 1] == b[|b| - 1];
      assert Finite(a) + (Finite(front) + [x]) == (Finite(a) + Finite(front)) + [x];
    }
  }
}
