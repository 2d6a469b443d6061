/** Candle indicators of the scanner: Wilder's average true range, volume-weighted price, relative
    volume at time, the opening range and confirmed swings (services/scanner/app/feature_engine.py). */
module Indicators {
  import opened Lists
  import opened Clock
  import opened Candles

  function Max(x: real, y: real): real { if x < y then y else x }

  function MinInt(x: int, y: int): int { if y < x then y else x }

  // ------------------------------------------------------------------ Wilder's average true range

  datatype Bar = Bar(high: real, low: real, close: real)

  function BarOf(c: Candle): Bar { Bar(c.high, c.low, c.close) }

  function TrueRange(previous: Bar, current: Bar): real {
    Max(Max(current.high - current.low, Abs(current.high - previous.close)), Abs(current.low - previous.close))
  }

  function TrueRanges(bars: seq<Bar>): (r: seq<real>)
    ensures |r| == if bars == [] then 0 else |bars| - 1
  {
    if |bars| <= 1 then [] else [TrueRange(bars[0], bars[1])] + TrueRanges(bars[1..])
  }

  lemma {:induction false} TrueRangesAt(bars: seq<Bar>, i: nat)
    requires i + 1 < |bars|
    ensures TrueRanges(bars)[i] == TrueRange(bars[i], bars[i + 1])
  {
    if i > 0 {
      TrueRangesAt(bars[1..], i - 1);
    }
  }

  /** Wilder's value after the first `n` true ranges, seeded with the mean of the first `period`. */
  function Wilder(ranges: seq<real>, period: nat, n: nat): real
    requires 0 < period <= n <= |ranges|
  {
    if n == period then Sum(ranges[..period]) / period as real
    else (Wilder(ranges, period, n - 1) * (period - 1) as real + ranges[n - 1]) / period as real
  }

  function AtrOfBars(bars: seq<Bar>, period: nat): Option<real>
    requires 0 < period
  {
    if |bars| < period + 1 then None else Some(Wilder(TrueRanges(bars), period, |bars| - 1))
  }

  function Bars(daily: seq<Candle>): seq<Bar> { Map(daily, (c: Candle) => BarOf(c)) }

  function Atr14(daily: seq<Candle>): Option<real> { AtrOfBars(Bars(daily), 14) }

  method Atr(daily: seq<Candle>, period: nat) returns (atr: Option<real>)
    requires 0 < period
    ensures atr == AtrOfBars(Bars(daily), period)
  {
    if |daily| < period + 1 {
      return None;
    }
    var ranges := TrueRanges(Bars(daily));
    var value := Sum(ranges[..period]) / period as real;
    for n := period to |ranges|
      invariant value == Wilder(ranges, period, n)
    {
      value := (value * (period - 1) as real + ranges[n]) / period as real;
    }
    return Some(value);
  }

  /** What one more range leaves of the old value, and what it brings itself. */
  function Decay(period: nat): real
    requires 0 < period
  {
    (period - 1) as real / period as real
  }

  function Share(period: nat): real
    requires 0 < period
  {
    1.0 / period as real
  }

  function Scale(w: seq<real>, q: real): (r: seq<real>)
    ensures |r| == |w|
  {
    if w == [] then [] else [w[0] * q] + Scale(w[1..], q)
  }

  function Dot(w: seq<real>, x: seq<real>): real
    requires |w| == |x|
  {
    if w == [] then 0.0 else w[0] * x[0] + Dot(w[1..], x[1..])
  }

  /** The same recurrence with the two factors apart. */
  function Smoothed(ranges: seq<real>, q: real, c: real, period: nat, n: nat): real
    requires period <= n <= |ranges|
  {
    if n == period then Sum(ranges[..period]) * c
    else Smoothed(ranges, q, c, period, n - 1) * q + c * ranges[n - 1]
  }

  /** Weights of the first `n` true ranges: the seed shares equally, and each later range
      takes its share after all the earlier weights have decayed. */
  function DecayedWeights(q: real, c: real, period: nat, n: nat): (w: seq<real>)
    requires period <= n
    ensures |w| == n
  {
    if n == period then seq(period, _ => c)
    else Scale(DecayedWeights(q, c, period, n - 1), q) + [c]
  }

  function WilderWeights(period: nat, n: nat): (w: seq<real>)
    requires 0 < period <= n
    ensures |w| == n
  {
    DecayedWeights(Decay(period), Share(period), period, n)
  }

  predicate NonNegative(w: seq<real>) { forall i :: 0 <= i < |w| ==> w[i] >= 0.0 }

  lemma ScaledTerm(w: real, x: real, q: real, rest: real)
    ensures (w * q) * x + rest * q == (w * x + rest) * q
    ensures w >= 0.0 && q >= 0.0 ==> w * q >= 0.0
  {
  }

  lemma {:induction false} ScaleDot(w: seq<real>, x: seq<real>, q: real)
    requires |w| == |x|
    ensures Dot(Scale(w, q), x) == Dot(w, x) * q
  {
    if w != [] {
      ScaleDot(w[1..], x[1..], q);
      ScaledTerm(w[0], x[0], q, Dot(w[1..], x[1..]));
    }
  }

  lemma {:induction false} ScaleSum(w: seq<real>, q: real)
    ensures Sum(Scale(w, q)) == Sum(w) * q
    ensures NonNegative(w) && q >= 0.0 ==> NonNegative(Scale(w, q))
  {
    if w != [] {
      ScaleSum(w[1..], q);
      ScaledTerm(w[0], 1.0, q, Sum(w[1..]));
    }
  }

  lemma {:induction false} DotSnoc(w: seq<real>, x: seq<real>, c: real, y: real)
    requires |w| == |x|
    ensures Dot(w + [c], x + [y]) == Dot(w, x) + c * y
  {
    if w != [] {
      assert (w + [c])[1..] == w[1..] + [c];
      assert (x + [y])[1..] == x[1..] + [y];
      DotSnoc(w[1..], x[1..], c, y);
    }
  }

  lemma {:induction false} EqualShares(n: nat, c: real, x: seq<real>)
    requires |x| == n
    ensures Dot(seq(n, _ => c), x) == Sum(x) * c
    ensures Sum(seq(n, _ => c)) == c * n as real
  {
    if n > 0 {
      assert seq(n, _ => c)[1..] == seq(n - 1, _ => c);
      EqualShares(n - 1, c, x[1..]);
      ScaledTerm(1.0, x[0], c, Sum(x[1..]));
    }
  }

  lemma DecayAndShare(period: nat)
    requires 0 < period
    ensures Decay(period) >= 0.0 && Share(period) >= 0.0
    ensures Decay(period) + Share(period) == 1.0
    ensures Share(period) * period as real == 1.0
  {
    var p := period as real;
    assert (p - 1.0) / p >= 0.0;
    assert (p - 1.0) / p == p / p - 1.0 / p;
  }

  lemma QuotientForms(value: real, range: real, p: real)
    requires p != 0.0
    ensures (value * (p - 1.0) + range) / p == value * ((p - 1.0) / p) + (1.0 / p) * range
    ensures value / p == value * (1.0 / p)
  {
    assert (value * (p - 1.0)) / p == value * ((p - 1.0) / p);
    assert (value * (p - 1.0) + range) / p == (value * (p - 1.0)) / p + range / p;
  }

  lemma DecayedDot(w: seq<real>, x: seq<real>, q: real, c: real, y: real)
    requires |w| == |x|
    ensures Dot(Scale(w, q) + [c], x + [y]) == Dot(w, x) * q + c * y
  {
    DotSnoc(Scale(w, q), x, c, y);
    ScaleDot(w, x, q);
  }

  lemma {:induction false} WilderIsSmoothed(ranges: seq<real>, period: nat, n: nat)
    requires 0 < period <= n <= |ranges|
    ensures Wilder(ranges, period, n) == Smoothed(ranges, Decay(period), Share(period), period, n)
  {
    hide Decay, Share, Sum;
    if n == period {
      SeedForms(ranges, period);
    } else {
      WilderIsSmoothed(ranges, period, n - 1);
      NextForms(ranges, period, n);
    }
  }

  lemma SeedForms(ranges: seq<real>, period: nat)
    requires 0 < period <= |ranges|
    ensures Wilder(ranges, period, period) == Sum(ranges[..period]) * Share(period)
  {
    hide Sum;
    QuotientForms(Sum(ranges[..period]), 0.0, period as real);
  }

  lemma NextForms(ranges: seq<real>, period: nat, n: nat)
    requires 0 < period < n <= |ranges|
    ensures Wilder(ranges, period, n) == Wilder(ranges, period, n - 1) * Decay(period) + Share(period) * ranges[n - 1]
  {
    hide Sum;
    var value := Wilder(ranges, period, n - 1);
    assert Wilder(ranges, period, n) == (value * (period as real - 1.0) + ranges[n - 1]) / period as real;
    hide Wilder;
    QuotientForms(value, ranges[n - 1], period as real);
  }

  lemma {:induction false} SmoothedIsWeightedSum(ranges: seq<real>, q: real, c: real, period: nat, n: nat)
    requires period <= n <= |ranges|
    ensures Smoothed(ranges, q, c, period, n) == Dot(DecayedWeights(q, c, period, n), ranges[..n])
  {
    hide Dot, Scale, Sum;
    if n == period {
      EqualShares(period, c, ranges[..period]);
    } else {
      SmoothedIsWeightedSum(ranges, q, c, period, n - 1);
      assert ranges[..n] == ranges[..n - 1] + [ranges[n - 1]];
      DecayedDot(DecayedWeights(q, c, period, n - 1), ranges[..n - 1], q, c, ranges[n - 1]);
    }
  }

  lemma {:induction false} DecayedWeightsSumToOne(q: real, c: real, period: nat, n: nat)
    requires period <= n && q >= 0.0 && c >= 0.0 && q + c == 1.0 && c * period as real == 1.0
    ensures NonNegative(DecayedWeights(q, c, period, n))
    ensures Sum(DecayedWeights(q, c, period, n)) == 1.0
  {
    if n == period {
      EqualShares(period, c, DecayedWeights(q, c, period, n));
    } else {
      DecayedWeightsSumToOne(q, c, period, n - 1);
      ScaleSum(DecayedWeights(q, c, period, n - 1), q);
      SumSnoc(Scale(DecayedWeights(q, c, period, n - 1), q), c);
    }
  }

  /** Wilder's value is a weighted average of all true ranges: no weight is negative, and they sum to one. */
  lemma WilderIsWeightedAverage(ranges: seq<real>, period: nat, n: nat)
    requires 0 < period <= n <= |ranges|
    ensures Wilder(ranges, period, n) == Dot(WilderWeights(period, n), ranges[..n])
    ensures NonNegative(WilderWeights(period, n))
    ensures Sum(WilderWeights(period, n)) == 1.0
  {
    hide Wilder, Smoothed, DecayedWeights, Dot, Sum, Decay, Share, NonNegative;
    WilderIsSmoothed(ranges, period, n);
    SmoothedIsWeightedSum(ranges, Decay(period), Share(period), period, n);
    DecayAndShare(period);
    DecayedWeightsSumToOne(Decay(period), Share(period), period, n);
  }

  lemma TermWithin(low: real, high: real, w: real, x: real, weights: real, rest: real)
    requires w >= 0.0 && low <= x <= high
    requires low * weights <= rest <= high * weights
    ensures low * (w + weights) <= w * x + rest <= high * (w + weights)
  {
    assert low * w <= x * w <= high * w;
    assert low * (w + weights) == low * w + low * weights;
    assert high * (w + weights) == high * w + high * weights;
  }

  lemma {:induction false} DotWithin(w: seq<real>, x: seq<real>, low: real, high: real)
    requires |w| == |x| && NonNegative(w)
    requires forall i :: 0 <= i < |x| ==> low <= x[i] <= high
    ensures low * Sum(w) <= Dot(w, x) <= high * Sum(w)
  {
    if w != [] {
      DotWithin(w[1..], x[1..], low, high);
      TermWithin(low, high, w[0], x[0], Sum(w[1..]), Dot(w[1..], x[1..]));
    }
  }

  /** Whatever bounds every true range bounds Wilder's value, so it lies between the least and the greatest. */
  lemma WilderWithinRanges(ranges: seq<real>, period: nat, n: nat, low: real, high: real)
    requires 0 < period <= n <= |ranges|
    requires forall i :: 0 <= i < n ==> low <= ranges[i] <= high
    ensures low <= Wilder(ranges, period, n) <= high
  {
    WilderIsWeightedAverage(ranges, period, n);
    DotWithin(WilderWeights(period, n), ranges[..n], low, high);
  }

  // ------------------------------------------------------------------ volume

  function SumVolume(cs: seq<Candle>): int { if cs == [] then 0 else cs[0].volume + SumVolume(cs[1..]) }

  function WeightedPrice(cs: seq<Candle>): real {
    if cs == [] then 0.0
    else (cs[0].high + cs[0].low + cs[0].close) / 3.0 * cs[0].volume as real + WeightedPrice(cs[1..])
  }

  function Vwap(cs: seq<Candle>): Option<real> {
    var total := SumVolume(cs);
    if total <= 0 then None else Some(WeightedPrice(cs) / total as real)
  }

  datatype RelativeVolume = RelativeVolume(current: int, mean: Option<real>, ratio: Option<real>)

  /** Least start; the index never lists a date without a candle. */
  function LeastStart(cs: seq<Candle>): Time {
    if cs == [] then 0
    else if |cs| == 1 then cs[0].start
    else MinInt(cs[0].start, LeastStart(cs[1..]))
  }

  lemma Inhabited(s: set<int>)
    requires s != {}
    ensures exists x: int :: x in s
  {
    if forall x :: x !in s { assert false; }
  }

  lemma {:induction false} MaximumExists(s: set<int>)
    requires s != {}
    ensures exists m :: m in s && forall x :: x in s ==> x <= m
    decreases s
  {
    Inhabited(s);
    var x :| x in s;
    var larger := set y | y in s && x < y;
    assert forall y :: y in s ==> y in larger || y <= x;
    if larger == {} {
      assert x in s && forall y :: y in s ==> y <= x;
    } else {
      MaximumExists(larger);
      var m :| m in larger && forall y :: y in larger ==> y <= m;
      assert m in s && forall y :: y in s ==> y <= m;
    }
  }

  function Newest(dates: set<int>): (newest: int)
    requires dates != {}
    ensures newest in dates && forall x :: x in dates ==> x <= newest
  {
    MaximumExists(dates);
    var newest :| newest in dates && forall x :: x in dates ==> x <= newest;
    newest
  }

  /** Dates from the newest to the oldest. */
  function Descending(dates: set<int>): (r: seq<int>)
    ensures forall d :: d in r <==> d in dates
    ensures forall i, j :: 0 <= i < j < |r| ==> r[i] > r[j]
    decreases |dates|
  {
    if dates == {} then []
    else
      var newest := Newest(dates);
      [newest] + Descending(dates - {newest})
  }

  /** Volume a past session had accumulated after the same elapsed time. */
  function SessionVolume(cs: seq<Candle>, elapsed: int): int {
    SumVolume(EndedBy(cs, LeastStart(cs) + elapsed))
  }

  function SessionVolumes(dates: seq<int>, history: map<int, seq<Candle>>, elapsed: int): (r: seq<real>)
    requires forall i :: 0 <= i < |dates| ==> dates[i] in history
    ensures |r| == |dates|
  {
    if dates == [] then []
    else [SessionVolume(history[dates[0]], elapsed) as real] + SessionVolumes(dates[1..], history, elapsed)
  }

  function Elapsed(sessionStart: Time, t: Time): int { if t < sessionStart then 0 else t - sessionStart }

  function RvolAtTime(current: seq<Candle>, sessionStart: Time, t: Time, history: map<int, seq<Candle>>)
    : RelativeVolume
  {
    var currentVolume := SumVolume(EndedBy(current, t));
    var dates := Descending(history.Keys);
    if |dates| < 10 then RelativeVolume(currentVolume, None, None)
    else
      var mean := Sum(SessionVolumes(dates[..10], history, Elapsed(sessionStart, t))) / 10.0;
      RelativeVolume(currentVolume, Some(mean),
                     if mean <= 0.0 then None else Some(currentVolume as real / mean))
  }

  // ------------------------------------------------------------------ opening range

  datatype OpeningRange = OpeningRange(
    high: real, low: real, mid: real, width: real, widthPct: real, widthAtr: Option<real>,
    volume: int, complete: bool)

  function HighestHigh(cs: seq<Candle>): real
    requires cs != []
  {
    if |cs| == 1 then cs[0].high else Max(cs[0].high, HighestHigh(cs[1..]))
  }

  function LowestLow(cs: seq<Candle>): real
    requires cs != []
  {
    if |cs| == 1 then cs[0].low
    else var rest := LowestLow(cs[1..]); if rest < cs[0].low then rest else cs[0].low
  }

  function ComputeOpeningRange(cs: seq<Candle>, start: Time, end: Time, t: Time, atr: Option<real>)
    : Option<OpeningRange>
  {
    var bars := Filter(cs, (c: Candle) => start <= c.start < end);
    if bars == [] then None
    else
      var high, low := HighestHigh(bars), LowestLow(bars);
      var mid, width := (high + low) / 2.0, high - low;
      Some(OpeningRange(
        high, low, mid, width,
        if mid == 0.0 then 0.0 else width / mid * 100.0,
        if atr.None? || atr.value == 0.0 then None else Some(width / atr.value),
        SumVolume(bars), end <= t))
  }

  // ------------------------------------------------------------------ confirmed swings

  datatype SwingKind = SwingHigh | SwingLow

  /** What identifies a swing and never changes, and the figures that follow the growing series. */
  datatype SwingCore = SwingCore(price: real, kind: SwingKind, originAt: Time, availableAt: Time)
  datatype FeatureLevel = FeatureLevel(core: SwingCore, strength: real, tests: int, ageBars: int)

  function PriceOf(c: Candle, kind: SwingKind): real { if kind.SwingHigh? then c.high else c.low }

  predicate IsSwing(cs: seq<Candle>, i: nat, kind: SwingKind)
    requires 2 <= i < |cs| - 2
  {
    match kind
    case SwingHigh =>
      && cs[i].high > cs[i - 1].high && cs[i].high > cs[i - 2].high
      && cs[i].high >= cs[i + 1].high && cs[i].high >= cs[i + 2].high
    case SwingLow =>
      && cs[i].low < cs[i - 1].low && cs[i].low < cs[i - 2].low
      && cs[i].low <= cs[i + 1].low && cs[i].low <= cs[i + 2].low
  }

  function LevelTests(cs: seq<Candle>, price: real, kind: SwingKind): int {
    if price == 0.0 then 0
    else |Filter(cs, (c: Candle) => Abs(PriceOf(c, kind) - price) / price <= 0.001)|
  }

  function Strength(tests: int, age: int): real {
    Max(0.0, -Max(-1.0, -(0.45 + MinInt(tests, 4) as real * 0.1 - MinInt(age, 20) as real * 0.01)))
  }

  function LevelAt(cs: seq<Candle>, i: nat, kind: SwingKind): FeatureLevel
    requires i + 2 < |cs|
  {
    var tests, age := LevelTests(cs, PriceOf(cs[i], kind), kind), |cs| - 1 - i;
    FeatureLevel(CoreAt(cs, i, kind), Strength(tests, age), tests, age)
  }

  function CoreAt(cs: seq<Candle>, i: nat, kind: SwingKind): SwingCore
    requires i + 2 < |cs|
  {
    SwingCore(PriceOf(cs[i], kind), kind, cs[i].end, cs[i + 2].end)
  }

  /** Swings whose centre index is below `n`. */
  function SwingsBelow(cs: seq<Candle>, n: nat, kind: SwingKind): seq<FeatureLevel>
    requires n <= |cs| - 2 || n == 0
  {
    if n <= 2 then []
    else SwingsBelow(cs, n - 1, kind) + (if IsSwing(cs, n - 1, kind) then [LevelAt(cs, n - 1, kind)] else [])
  }

  function Swings(cs: seq<Candle>, kind: SwingKind): seq<FeatureLevel> {
    SwingsBelow(cs, if |cs| < 2 then 0 else |cs| - 2, kind)
  }

  method ConfirmedSwings(cs: seq<Candle>) returns (highs: seq<FeatureLevel>, lows: seq<FeatureLevel>)
    ensures highs == Swings(cs, SwingHigh)
    ensures lows == Swings(cs, SwingLow)
  {
    highs, lows := [], [];
    if |cs| < 5 {
      return;
    }
    for index := 2 to |cs| - 2
      invariant highs == SwingsBelow(cs, index, SwingHigh)
      invariant lows == SwingsBelow(cs, index, SwingLow)
    {
      var candle, age := cs[index], |cs| - 1 - index;
      if candle.high > cs[index - 1].high && candle.high > cs[index - 2].high
         && candle.high >= cs[index + 1].high && candle.high >= cs[index + 2].high {
        var tests := LevelTests(cs, candle.high, SwingHigh);
        highs := highs + [FeatureLevel(
          SwingCore(candle.high, SwingHigh, candle.end, cs[index + 2].end), Strength(tests, age), tests, age)];
      }
      if candle.low < cs[index - 1].low && candle.low < cs[index - 2].low
         && candle.low <= cs[index + 1].low && candle.low <= cs[index + 2].low {
        var tests := LevelTests(cs, candle.low, SwingLow);
        lows := lows + [FeatureLevel(
          SwingCore(candle.low, SwingLow, candle.end, cs[index + 2].end), Strength(tests, age), tests, age)];
      }
    }
  }

  function Cores(levels: seq<FeatureLevel>): seq<SwingCore> { Map(levels, (l: FeatureLevel) => l.core) }

  function AvailableBy(cores: seq<SwingCore>, t: Time): seq<SwingCore> {
    Filter(cores, (s: SwingCore) => s.availableAt <= t)
  }

  lemma AvailableByConcat(a: seq<SwingCore>, b: seq<SwingCore>, t: Time)
    ensures AvailableBy(a + b, t) == AvailableBy(a, t) + AvailableBy(b, t)
  {
    FilterConcat(a, b, (s: SwingCore) => s.availableAt <= t);
  }

  /** Cutting the series to its first `m` bars keeps exactly the swings confirmed by then. */
  lemma {:induction false} SwingsOfPrefixBelow(cs: seq<Candle>, m: nat, n: nat, kind: SwingKind)
    requires 2 <= m <= |cs| && n <= |cs| - 2 && EndsIncreasing(cs)
    ensures AvailableBy(Cores(SwingsBelow(cs, n, kind)), cs[m - 1].end) ==
            Cores(SwingsBelow(cs[..m], if n <= m - 2 then n else m - 2, kind))
  {
    if n > 2 {
      SwingsOfPrefixBelow(cs, m, n - 1, kind);
      SplitLastSwing(cs, n, kind, cs[m - 1].end);
      if n <= m - 2 {
        SameSwing(cs, m, n - 1, kind);
        SplitLastSwing(cs[..m], n, kind, cs[m - 1].end);
      }
    }
  }

  function SwingOf(cs: seq<Candle>, i: nat, kind: SwingKind): seq<SwingCore>
    requires 2 <= i < |cs| - 2
  {
    if IsSwing(cs, i, kind) then [CoreAt(cs, i, kind)] else []
  }

  lemma SplitLastSwing(cs: seq<Candle>, n: nat, kind: SwingKind, t: Time)
    requires 2 < n <= |cs| - 2
    ensures Cores(SwingsBelow(cs, n, kind)) == Cores(SwingsBelow(cs, n - 1, kind)) + SwingOf(cs, n - 1, kind)
    ensures AvailableBy(Cores(SwingsBelow(cs, n, kind)), t) ==
            AvailableBy(Cores(SwingsBelow(cs, n - 1, kind)), t) +
            (if cs[n + 1].end <= t then SwingOf(cs, n - 1, kind) else [])
  {
    hide IsSwing, LevelTests, Strength, PriceOf;
    AvailableByConcat(Cores(SwingsBelow(cs, n - 1, kind)), SwingOf(cs, n - 1, kind), t);
  }

  lemma SameSwing(cs: seq<Candle>, m: nat, i: nat, kind: SwingKind)
    requires 2 <= i && i + 2 < m <= |cs|
    ensures IsSwing(cs[..m], i, kind) == IsSwing(cs, i, kind)
    ensures CoreAt(cs[..m], i, kind) == CoreAt(cs, i, kind)
  {
  }

  lemma {:induction false} SameSwingsBelow(cs: seq<Candle>, m: nat, n: nat, kind: SwingKind)
    requires n + 2 <= m <= |cs|
    ensures Cores(SwingsBelow(cs[..m], n, kind)) == Cores(SwingsBelow(cs, n, kind))
  {
    if n > 2 {
      SameSwingsBelow(cs, m, n - 1, kind);
      SameSwing(cs, m, n - 1, kind);
      SplitLastSwing(cs[..m], n, kind, 0);
      SplitLastSwing(cs, n, kind, 0);
    }
  }

  /** Swings do not repaint: a prefix of `m` bars shows the swings of the whole series whose centre is below `m - 2`;
      with ordered ends these are the ones available by the end of the prefix. */
  lemma SwingsDoNotRepaint(cs: seq<Candle>, m: nat, kind: SwingKind)
    requires m <= |cs|
    ensures Cores(Swings(cs[..m], kind)) == Cores(SwingsBelow(cs, if m < 2 then 0 else m - 2, kind))
    ensures 0 < m && EndsIncreasing(cs) ==>
      Cores(Swings(cs[..m], kind)) == AvailableBy(Cores(Swings(cs, kind)), cs[m - 1].end)
  {
    hide AvailableBy, Cores;
    if m >= 2 {
      SameSwingsBelow(cs, m, m - 2, kind);
    }
    if 0 < m && EndsIncreasing(cs) {
      SwingsAvailableByEnd(cs, m, kind);
    }
  }

  lemma SwingsAvailableByEnd(cs: seq<Candle>, m: nat, kind: SwingKind)
    requires 0 < m <= |cs| && EndsIncreasing(cs)
    ensures Cores(Swings(cs[..m], kind)) == AvailableBy(Cores(Swings(cs, kind)), cs[m - 1].end)
  {
    if m == 1 {
      if |cs| >= 2 {
        SwingsLaterThanFirst(cs, |cs| - 2, kind);
      }
    } else {
      SwingsOfPrefixBelow(cs, m, |cs| - 2, kind);
    }
  }

  lemma {:induction false} SwingsLaterThanFirst(cs: seq<Candle>, n: nat, kind: SwingKind)
    requires n <= |cs| - 2 && EndsIncreasing(cs)
    ensures AvailableBy(Cores(SwingsBelow(cs, n, kind)), cs[0].end) == []
  {
    if n > 2 {
      SwingsLaterThanFirst(cs, n - 1, kind);
      SplitLastSwing(cs, n, kind, cs[0].end);
      assert cs[n + 1].end > cs[0].end;
    }
  }
}
