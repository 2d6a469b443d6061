/** What the indicators mean, each said of its result and its inputs alone: zones and clocks, true ranges, the
    volume-weighted price, relative volume, the opening range, the rolling baseline and swings
    (services/scanner/app/feature_engine.py:741-991). */
module IndicatorLaws {
  import opened Lists
  import opened Clock
  import opened Candles
  import opened Indicators

  // ------------------------------------------------------------------ clocks

  /** The offset of the last listed change that has happened by `t`, or the base offset before them all. */
  ghost predicate InForce(z: Zone, t: Time, offset: int) {
    || ((forall k :: 0 <= k < |z.changes| ==> t < z.changes[k].at) && offset == z.base)
    || (exists k :: 0 <= k < |z.changes| && z.changes[k].at <= t && offset == z.changes[k].offset &&
                    forall j :: k < j < |z.changes| ==> t < z.changes[j].at)
  }

  /** A local clock shows this minute of this day. */
  ghost predicate Shows(z: Zone, t: Time, offset: int, day: int, minute: int) {
    InForce(z, t, offset) && 0 <= minute < 1440 &&
    day * 86400 + minute * 60 <= t + offset < day * 86400 + minute * 60 + 60
  }

  /** A last change that is still to come makes no difference. */
  lemma StillInForce(z: Zone, t: Time, offset: int)
    requires z.changes != [] && t < z.changes[|z.changes| - 1].at
    requires InForce(z.(changes := z.changes[..|z.changes| - 1]), t, offset)
    ensures InForce(z, t, offset)
  {
    var last := |z.changes| - 1;
    var earlier := z.changes[..last];
    assert forall k :: 0 <= k < last ==> earlier[k] == z.changes[k];
    if k :| 0 <= k < last && earlier[k].at <= t && offset == earlier[k].offset &&
            forall j :: k < j < last ==> t < earlier[j].at {
      forall j | k < j <= last ensures t < z.changes[j].at {
        assert j < last ==> t < earlier[j].at;
      }
      assert z.changes[k].at <= t && offset == z.changes[k].offset;
    } else {
      forall k | 0 <= k <= last ensures t < z.changes[k].at {
        assert k < last ==> t < earlier[k].at;
      }
    }
  }

  lemma {:induction false} OffsetInForce(z: Zone, t: Time)
    ensures InForce(z, t, OffsetAt(z, t))
    decreases |z.changes|
  {
    if z.changes != [] {
      var last := |z.changes| - 1;
      if z.changes[last].at <= t {
        assert OffsetAt(z, t) == z.changes[last].offset;
      } else {
        hide InForce;
        OffsetInForce(z.(changes := z.changes[..last]), t);
        StillInForce(z, t, OffsetAt(z, t));
      }
    }
  }

  lemma OneInForce(z: Zone, t: Time, a: int, b: int)
    requires InForce(z, t, a) && InForce(z, t, b)
    ensures a == b
  {
    if k :| 0 <= k < |z.changes| && z.changes[k].at <= t {
      var i :| 0 <= i < |z.changes| && z.changes[i].at <= t && a == z.changes[i].offset &&
               forall j :: i < j < |z.changes| ==> t < z.changes[j].at;
      var j :| 0 <= j < |z.changes| && z.changes[j].at <= t && b == z.changes[j].offset &&
               forall i :: j < i < |z.changes| ==> t < z.changes[i].at;
      assert i == j;
    }
  }

  /** Date and minute of day are what the local clock shows. */
  lemma ClockShows(z: Zone, t: Time, offset: int, day: int, minute: int)
    requires Shows(z, t, offset, day, minute)
    ensures LocalDate(z, t) == day && LocalMinuteOfDay(z, t) == minute
  {
    hide InForce, OffsetAt;
    OffsetInForce(z, t);
    OneInForce(z, t, offset, OffsetAt(z, t));
    var local := t + offset;
    assert local / 60 == day * 1440 + minute;
  }

  lemma SomethingShows(z: Zone, t: Time)
    ensures Shows(z, t, OffsetAt(z, t), LocalDate(z, t), LocalMinuteOfDay(z, t))
  {
    hide InForce, OffsetAt;
    OffsetInForce(z, t);
    var local := t + OffsetAt(z, t);
    assert local / 60 % 1440 + local / 86400 * 1440 == local / 60;
  }

  /** A record's date is the UTC day its instant falls in. */
  lemma UtcDateHolds(t: Time)
    ensures UtcDate(t) * 86400 <= t < UtcDate(t) * 86400 + 86400
  {
  }

  // ------------------------------------------------------------------ true ranges

  /** The true range is the length of the hull of the bar and the previous close. */
  lemma TrueRangeIsHull(previous: Bar, current: Bar)
    requires current.low <= current.high
    ensures TrueRange(previous, current) ==
            (if current.high < previous.close then previous.close else current.high) -
            (if previous.close < current.low then previous.close else current.low)
  {
  }

  function Power(x: real, k: nat): real { if k == 0 then 1.0 else x * Power(x, k - 1) }

  lemma {:induction false} ScaledAt(w: seq<real>, q: real, i: nat)
    requires i < |w|
    ensures Scale(w, q)[i] == w[i] * q
  {
    if i > 0 {
      ScaledAt(w[1..], q, i - 1);
    }
  }

  lemma OnceMore(c: real, q: real, x: real)
    ensures c * x * q == c * (q * x)
  {
  }

  lemma {:induction false} DecayedAt(q: real, c: real, period: nat, n: nat, i: nat)
    requires period <= n && i < n
    ensures DecayedWeights(q, c, period, n)[i] == c * Power(q, if i < period then n - period else n - 1 - i)
  {
    hide Scale;
    if n > period && i < n - 1 {
      var k := if i < period then n - period else n - 1 - i;
      DecayedAt(q, c, period, n - 1, i);
      ScaledAt(DecayedWeights(q, c, period, n - 1), q, i);
      OnceMore(c, q, Power(q, k - 1));
    }
  }

  /** Every range of the seed weighs alike; with each range that follows, those before keep all but one part in
      `period` of their weight, and the new one gets that part. */
  lemma WeightsDecay(period: nat, n: nat, i: nat)
    requires 0 < period <= n && i < n
    ensures WilderWeights(period, n)[i] ==
            1.0 / period as real *
            Power((period - 1) as real / period as real, if i < period then n - period else n - 1 - i)
  {
    DecayedAt(Decay(period), Share(period), period, n, i);
  }

  /** The true ranges of consecutive bars. */
  ghost predicate AreRanges(bars: seq<Bar>, ranges: seq<real>) {
    |ranges| == |bars| - 1 && forall i :: 0 <= i < |ranges| ==> ranges[i] == TrueRange(bars[i], bars[i + 1])
  }

  /** Fifteen days give a value, the weighted average of all true ranges. */
  ghost predicate IsAtr14(daily: seq<Candle>, atr: Option<real>) {
    && (atr.Some? <==> |daily| >= 15)
    && (atr.Some? ==> forall ranges :: AreRanges(Bars(daily), ranges) ==>
          atr.value == Dot(WilderWeights(14, |daily| - 1), ranges))
  }

  lemma AtrAverages(daily: seq<Candle>)
    ensures IsAtr14(daily, Atr14(daily))
  {
    hide TrueRange, Dot, WilderWeights, Wilder;
    if |daily| >= 15 {
      var bars := Bars(daily);
      forall ranges | AreRanges(bars, ranges)
        ensures Atr14(daily).value == Dot(WilderWeights(14, |daily| - 1), ranges) {
        forall i | 0 <= i < |ranges| ensures ranges[i] == TrueRanges(bars)[i] {
          TrueRangesAt(bars, i);
        }
        assert ranges == TrueRanges(bars);
        WilderIsWeightedAverage(ranges, 14, |ranges|);
        assert ranges[..|ranges|] == ranges;
      }
    }
  }

  // ------------------------------------------------------------------ volume-weighted price

  function TotalVolume(cs: seq<Candle>): int {
    if cs == [] then 0 else TotalVolume(cs[..|cs| - 1]) + cs[|cs| - 1].volume
  }

  /** Three times the turnover at the typical price of each candle. */
  function TripleTurnover(cs: seq<Candle>): real {
    if cs == [] then 0.0
    else
      var c := cs[|cs| - 1];
      TripleTurnover(cs[..|cs| - 1]) + (c.high + c.low + c.close) * c.volume as real
  }

  /** Defined exactly for traded volume; times that volume it is the turnover at typical prices. */
  ghost predicate IsVwap(cs: seq<Candle>, v: Option<real>) {
    && (v.Some? <==> TotalVolume(cs) > 0)
    && (v.Some? ==> 3.0 * (v.value * TotalVolume(cs) as real) == TripleTurnover(cs))
  }

  lemma {:induction false} SumVolumeSnoc(cs: seq<Candle>, c: Candle)
    ensures SumVolume(cs + [c]) == SumVolume(cs) + c.volume
  {
    if cs == [] {
      assert [c][1..] == [] && cs + [c] == [c];
    } else {
      assert (cs + [c])[1..] == cs[1..] + [c];
      SumVolumeSnoc(cs[1..], c);
    }
  }

  lemma {:induction false} WeightedPriceSnoc(cs: seq<Candle>, c: Candle)
    ensures WeightedPrice(cs + [c]) == WeightedPrice(cs) + (c.high + c.low + c.close) / 3.0 * c.volume as real
  {
    if cs == [] {
      assert [c][1..] == [] && cs + [c] == [c];
    } else {
      assert (cs + [c])[1..] == cs[1..] + [c];
      WeightedPriceSnoc(cs[1..], c);
    }
  }

  lemma Third(x: real, y: real)
    ensures 3.0 * (x / 3.0 * y) == x * y
  {
  }

  lemma {:induction false} VolumesAgree(cs: seq<Candle>)
    ensures SumVolume(cs) == TotalVolume(cs)
    ensures 3.0 * WeightedPrice(cs) == TripleTurnover(cs)
  {
    if cs != [] {
      var n := |cs| - 1;
      assert cs == cs[..n] + [cs[n]];
      VolumesAgree(cs[..n]);
      SumVolumeSnoc(cs[..n], cs[n]);
      WeightedPriceSnoc(cs[..n], cs[n]);
      Third(cs[n].high + cs[n].low + cs[n].close, cs[n].volume as real);
    }
  }

  lemma VwapWeighs(cs: seq<Candle>)
    ensures IsVwap(cs, Vwap(cs))
  {
    VolumesAgree(cs);
    if SumVolume(cs) > 0 {
      Undivided(WeightedPrice(cs), SumVolume(cs) as real);
    }
  }

  lemma Undivided(x: real, n: real)
    requires n != 0.0
    ensures x / n * n == x
  {
  }

  // ------------------------------------------------------------------ relative volume at time

  /** Volume of the candles ended by an instant. */
  function VolumeBy(cs: seq<Candle>, t: Time): int {
    if cs == [] then 0
    else VolumeBy(cs[..|cs| - 1], t) + (if cs[|cs| - 1].end <= t then cs[|cs| - 1].volume else 0)
  }

  /** Volume of the candles of `cs` that end within `elapsed` of every start in the session, hence of its first. */
  ghost function VolumeWithin(cs: seq<Candle>, session: seq<Candle>, elapsed: int): int {
    if cs == [] then 0
    else
      var c := cs[|cs| - 1];
      VolumeWithin(cs[..|cs| - 1], session, elapsed) +
      (if forall d :: d in session ==> c.end <= d.start + elapsed then c.volume else 0)
  }

  /** The ten latest dates of the history, the newest first. */
  ghost predicate TenNewest(history: map<int, seq<Candle>>, dates: seq<int>) {
    && |dates| == 10
    && (forall i :: 0 <= i < 10 ==> dates[i] in history)
    && (forall i, j :: 0 <= i < j < 10 ==> dates[i] > dates[j])
    && (forall d, i :: d in history && d !in dates && 0 <= i < 10 ==> d < dates[i])
  }

  /** What these sessions had traded after the elapsed time, all together. */
  ghost function TradedWithin(history: map<int, seq<Candle>>, dates: seq<int>, elapsed: int): int
    requires forall i :: 0 <= i < |dates| ==> dates[i] in history
  {
    if dates == [] then 0
    else
      VolumeWithin(history[dates[0]], history[dates[0]], elapsed) + TradedWithin(history, dates[1..], elapsed)
  }

  ghost predicate IsRelativeVolume(
      current: seq<Candle>, sessionStart: Time, t: Time, history: map<int, seq<Candle>>, r: RelativeVolume)
  {
    && r.current == VolumeBy(current, t)
    && (r.mean.Some? <==> |history.Keys| >= 10)
    && (forall dates :: TenNewest(history, dates) ==>
          r.mean.Some? &&
          r.mean.value * 10.0 ==
          TradedWithin(history, dates, if t < sessionStart then 0 else t - sessionStart) as real)
    && (r.ratio.Some? <==> r.mean.Some? && r.mean.value > 0.0)
    && (r.ratio.Some? ==> r.ratio.value * r.mean.value == r.current as real)
  }

  lemma {:induction false} VolumeByIsFiltered(cs: seq<Candle>, t: Time)
    ensures SumVolume(EndedBy(cs, t)) == VolumeBy(cs, t)
  {
    if cs != [] {
      var n := |cs| - 1;
      VolumeByIsFiltered(cs[..n], t);
      EndedBySnoc(cs[..n], cs[n], t);
      assert cs == cs[..n] + [cs[n]];
      if cs[n].end <= t { SumVolumeSnoc(EndedBy(cs[..n], t), cs[n]); }
    }
  }

  lemma EndedBySnoc(cs: seq<Candle>, c: Candle, t: Time)
    ensures EndedBy(cs + [c], t) == if c.end <= t then EndedBy(cs, t) + [c] else EndedBy(cs, t)
  {
    FilterConcat(cs, [c], (c: Candle) => c.end <= t);
    assert [c][1..] == [];
  }

  lemma {:induction false} LeastStartIsLeast(cs: seq<Candle>)
    requires cs != []
    ensures exists c :: c in cs && c.start == LeastStart(cs)
    ensures forall c :: c in cs ==> LeastStart(cs) <= c.start
  {
    if |cs| == 1 {
      assert cs[0] in cs;
    } else {
      LeastStartIsLeast(cs[1..]);
      assert cs[0] in cs;
      assert forall c :: c in cs ==> c == cs[0] || c in cs[1..];
    }
  }

  lemma WithinEvery(session: seq<Candle>, end: Time, elapsed: int)
    requires session != []
    ensures end <= LeastStart(session) + elapsed <==> forall d :: d in session ==> end <= d.start + elapsed
  {
    LeastStartIsLeast(session);
  }

  lemma {:induction false} WithinIsFiltered(cs: seq<Candle>, session: seq<Candle>, elapsed: int)
    requires session != []
    ensures VolumeBy(cs, LeastStart(session) + elapsed) == VolumeWithin(cs, session, elapsed)
  {
    hide LeastStart;
    if cs != [] {
      WithinIsFiltered(cs[..|cs| - 1], session, elapsed);
      WithinEvery(session, cs[|cs| - 1].end, elapsed);
    }
  }

  lemma {:induction false} VolumesAreTraded(dates: seq<int>, history: map<int, seq<Candle>>, elapsed: int)
    requires forall i :: 0 <= i < |dates| ==> dates[i] in history
    ensures Sum(SessionVolumes(dates, history, elapsed)) == TradedWithin(history, dates, elapsed) as real
  {
    hide LeastStart;
    if dates != [] {
      var session := history[dates[0]];
      VolumesAreTraded(dates[1..], history, elapsed);
      VolumeByIsFiltered(session, LeastStart(session) + elapsed);
      if session != [] { WithinIsFiltered(session, session, elapsed); }
      assert SessionVolumes(dates, history, elapsed)[1..] == SessionVolumes(dates[1..], history, elapsed);
    }
  }

  lemma {:induction false} DescendingSize(dates: set<int>)
    ensures |Descending(dates)| == |dates|
    decreases |dates|
  {
    if dates != {} {
      var newest := Newest(dates);
      DescendingSize(dates - {newest});
    }
  }

  /** Two descending lists, one of all dates and one of ten dates above all others, begin alike. */
  lemma NextNewest(history: map<int, seq<Candle>>, dates: seq<int>, all: seq<int>, k: nat)
    requires TenNewest(history, dates) && k < 10
    requires forall d: int :: d in all <==> d in history.Keys
    requires forall i, j :: 0 <= i < j < |all| ==> all[i] > all[j]
    requires k <= |all| && forall i :: 0 <= i < k ==> all[i] == dates[i]
    ensures k < |all| && all[k] == dates[k]
  {
    var next: int := dates[k];
    assert next in history;
    assert next in all;
    var j :| 0 <= j < |all| && all[j] == next;
    assert all[k] in all;
    if all[k] in dates {
      var m :| 0 <= m < 10 && dates[m] == all[k];
    }
  }

  lemma {:induction false} SameNewest(history: map<int, seq<Candle>>, dates: seq<int>, n: nat)
    requires TenNewest(history, dates) && n <= 10
    ensures n <= |Descending(history.Keys)| && forall i :: 0 <= i < n ==> Descending(history.Keys)[i] == dates[i]
  {
    hide TenNewest;
    if n > 0 {
      SameNewest(history, dates, n - 1);
      NextNewest(history, dates, Descending(history.Keys), n - 1);
    }
  }

  lemma NewestVolumes(history: map<int, seq<Candle>>, dates: seq<int>, elapsed: int)
    requires TenNewest(history, dates)
    ensures |Descending(history.Keys)| >= 10
    ensures Sum(SessionVolumes(Descending(history.Keys)[..10], history, elapsed)) ==
            TradedWithin(history, dates, elapsed) as real
  {
    hide SessionVolumes, TradedWithin;
    SameNewest(history, dates, 10);
    assert Descending(history.Keys)[..10] == dates;
    VolumesAreTraded(dates, history, elapsed);
  }

  /** Relative volume compares with the mean of the ten latest past sessions, each up to the same elapsed time. */
  lemma RelativeVolumeCompares(current: seq<Candle>, sessionStart: Time, t: Time, history: map<int, seq<Candle>>)
    ensures IsRelativeVolume(current, sessionStart, t, history, RvolAtTime(current, sessionStart, t, history))
  {
    hide SessionVolumes, TradedWithin, VolumeBy, EndedBy, Descending, Sum;
    VolumeByIsFiltered(current, t);
    DescendingSize(history.Keys);
    var r := RvolAtTime(current, sessionStart, t, history);
    forall dates | TenNewest(history, dates)
      ensures r.mean.Some? &&
              r.mean.value * 10.0 ==
              TradedWithin(history, dates, if t < sessionStart then 0 else t - sessionStart) as real {
      NewestVolumes(history, dates, Elapsed(sessionStart, t));
    }
    if r.ratio.Some? { Undivided(r.current as real, r.mean.value); }
  }

  lemma {:induction false} SameTraded(
      history: map<int, seq<Candle>>, other: map<int, seq<Candle>>, dates: seq<int>, elapsed: int)
    requires forall i :: 0 <= i < |dates| ==> dates[i] in history && dates[i] in other
    requires forall i :: 0 <= i < |dates| ==> history[dates[i]] == other[dates[i]]
    ensures TradedWithin(history, dates, elapsed) == TradedWithin(other, dates, elapsed)
  {
    if dates != [] {
      SameTraded(history, other, dates[1..], elapsed);
    }
  }

  /** Sessions older than the ten latest have no part in it. */
  lemma OlderSessionsHaveNoPart(current: seq<Candle>, sessionStart: Time, t: Time, history: map<int, seq<Candle>>,
                                other: map<int, seq<Candle>>, dates: seq<int>)
    requires TenNewest(history, dates) && TenNewest(other, dates)
    requires forall i :: 0 <= i < 10 ==> history[dates[i]] == other[dates[i]]
    ensures RvolAtTime(current, sessionStart, t, history) == RvolAtTime(current, sessionStart, t, other)
  {
    var r, q := RvolAtTime(current, sessionStart, t, history), RvolAtTime(current, sessionStart, t, other);
    hide RvolAtTime;
    RelativeVolumeCompares(current, sessionStart, t, history);
    RelativeVolumeCompares(current, sessionStart, t, other);
    SameTraded(history, other, dates, if t < sessionStart then 0 else t - sessionStart);
    assert r.mean == q.mean;
    if r.ratio.Some? {
      SameQuotient(r.ratio.value, q.ratio.value, r.mean.value);
    }
  }

  lemma SameQuotient(x: real, y: real, m: real)
    requires m > 0.0 && x * m == y * m
    ensures x == y
  {
    assert x * m / m == x && y * m / m == y;
  }

  // ------------------------------------------------------------------ opening range

  predicate InWindow(c: Candle, start: Time, end: Time) { start <= c.start && c.start < end }

  function WindowVolume(cs: seq<Candle>, start: Time, end: Time): int {
    if cs == [] then 0
    else
      var c := cs[|cs| - 1];
      WindowVolume(cs[..|cs| - 1], start, end) + (if InWindow(c, start, end) then c.volume else 0)
  }

  /** There is a range as soon as a candle starts in the window; its bounds are reached and not exceeded there. */
  ghost predicate IsOpeningRange(
      cs: seq<Candle>, start: Time, end: Time, t: Time, atr: Option<real>, r: Option<OpeningRange>)
  {
    && (r.Some? <==> exists c :: c in cs && InWindow(c, start, end))
    && (r.Some? ==>
          && (exists c :: c in cs && InWindow(c, start, end) && c.high == r.value.high)
          && (exists c :: c in cs && InWindow(c, start, end) && c.low == r.value.low)
          && (forall c :: c in cs && InWindow(c, start, end) ==> c.high <= r.value.high && r.value.low <= c.low)
          && r.value.mid + r.value.mid == r.value.high + r.value.low
          && r.value.width == r.value.high - r.value.low
          && (if r.value.mid == 0.0 then r.value.widthPct == 0.0
              else r.value.widthPct * r.value.mid == r.value.width * 100.0)
          && (r.value.widthAtr.Some? <==> atr.Some? && atr.value != 0.0)
          && (r.value.widthAtr.Some? ==> r.value.widthAtr.value * atr.value == r.value.width)
          && r.value.volume == WindowVolume(cs, start, end)
          && (r.value.complete <==> end <= t))
  }

  lemma {:induction false} ExtremesReached(cs: seq<Candle>)
    requires cs != []
    ensures exists c :: c in cs && c.high == HighestHigh(cs)
    ensures exists c :: c in cs && c.low == LowestLow(cs)
    ensures forall c :: c in cs ==> c.high <= HighestHigh(cs) && LowestLow(cs) <= c.low
  {
    assert cs[0] in cs;
    if |cs| > 1 {
      ExtremesReached(cs[1..]);
      assert forall c :: c in cs ==> c == cs[0] || c in cs[1..];
    }
  }

  function Window(cs: seq<Candle>, start: Time, end: Time): seq<Candle> {
    Filter(cs, (c: Candle) => start <= c.start < end)
  }

  lemma WindowSnoc(cs: seq<Candle>, c: Candle, start: Time, end: Time)
    ensures Window(cs + [c], start, end) ==
            if InWindow(c, start, end) then Window(cs, start, end) + [c] else Window(cs, start, end)
  {
    FilterConcat(cs, [c], (c: Candle) => start <= c.start < end);
    assert [c][1..] == [];
  }

  lemma {:induction false} WindowVolumeIsFiltered(cs: seq<Candle>, start: Time, end: Time)
    ensures SumVolume(Window(cs, start, end)) == WindowVolume(cs, start, end)
  {
    if cs != [] {
      var n := |cs| - 1;
      WindowVolumeIsFiltered(cs[..n], start, end);
      WindowSnoc(cs[..n], cs[n], start, end);
      assert cs == cs[..n] + [cs[n]];
      if InWindow(cs[n], start, end) { SumVolumeSnoc(Window(cs[..n], start, end), cs[n]); }
    }
  }

  lemma OpeningRangeSpans(cs: seq<Candle>, start: Time, end: Time, t: Time, atr: Option<real>)
    ensures IsOpeningRange(cs, start, end, t, atr, ComputeOpeningRange(cs, start, end, t, atr))
  {
    hide HighestHigh, LowestLow, SumVolume, WindowVolume;
    var bars := Window(cs, start, end);
    WindowVolumeIsFiltered(cs, start, end);
    if bars == [] {
      assert forall c :: c in cs && InWindow(c, start, end) ==> c in bars;
    } else {
      assert bars[0] in bars;
      ExtremesReached(bars);
      var r := ComputeOpeningRange(cs, start, end, t, atr).value;
      if r.mid != 0.0 { Percent(r.width, r.mid); }
      if r.widthAtr.Some? { Undivided(r.width, atr.value); }
    }
  }

  lemma Percent(x: real, y: real)
    requires y != 0.0
    ensures x / y * 100.0 * y == x * 100.0
  {
    Undivided(x, y);
  }

  // ------------------------------------------------------------------ rolling baseline

  predicate Eligible(c: Candle, boundary: Time) { c.end <= boundary && c.close > 0.0 }

  /** The close of an eligible candle that no eligible one ends after. */
  ghost predicate IsBaseline(cs: seq<Candle>, boundary: Time, close: Option<real>) {
    && (close.Some? <==> exists c :: c in cs && Eligible(c, boundary))
    && (close.Some? ==>
          exists c :: c in cs && Eligible(c, boundary) && close.value == c.close &&
                      forall d :: d in cs && Eligible(d, boundary) ==> d.end <= c.end)
  }

  lemma BaselineIsLatest(cs: seq<Candle>, t: Time, minutes: nat)
    ensures IsBaseline(cs, t - minutes * 60, RollingBaseline(cs, t, minutes))
  {
    var boundary := t - minutes * 60;
    var eligible := PositiveEndedBy(cs, boundary);
    assert forall c :: c in eligible <==> c in cs && Eligible(c, boundary);
    if eligible != [] {
      assert eligible[0] in eligible;
      var latest := LastEnding(eligible);
      forall d | d in cs && Eligible(d, boundary) ensures d.end <= latest.end {
        assert d in eligible;
      }
    }
  }

  // ------------------------------------------------------------------ swings

  /** Strictly beyond the two bars before and not short of the two after. */
  predicate Peak(cs: seq<Candle>, i: nat)
    requires 2 <= i < |cs| - 2
  {
    && cs[i - 1].high < cs[i].high && cs[i - 2].high < cs[i].high
    && cs[i + 1].high <= cs[i].high && cs[i + 2].high <= cs[i].high
  }

  predicate Trough(cs: seq<Candle>, i: nat)
    requires 2 <= i < |cs| - 2
  {
    && cs[i].low < cs[i - 1].low && cs[i].low < cs[i - 2].low
    && cs[i].low <= cs[i + 1].low && cs[i].low <= cs[i + 2].low
  }

  /** How many candles come within a thousandth of a positive price; a zero price is never tested and a negative
      one by every candle. */
  function Tests(cs: seq<Candle>, price: real, kind: SwingKind): int {
    if cs == [] || price == 0.0 then 0
    else
      var c := cs[|cs| - 1];
      var x := if kind.SwingHigh? then c.high else c.low;
      Tests(cs[..|cs| - 1], price, kind) +
      (if price < 0.0 || (1000.0 * (x - price) <= price && 1000.0 * (price - x) <= price) then 1 else 0)
  }

  ghost predicate IsLevel(cs: seq<Candle>, i: nat, kind: SwingKind, l: FeatureLevel)
    requires 2 <= i < |cs| - 2
  {
    var price := if kind.SwingHigh? then cs[i].high else cs[i].low;
    && (if kind.SwingHigh? then Peak(cs, i) else Trough(cs, i))
    && l.core == SwingCore(price, kind, cs[i].end, cs[i + 2].end)
    && l.ageBars == |cs| - 1 - i
    && l.tests == Tests(cs, price, kind)
    && 100.0 * l.strength == 45.0 + 10.0 * (if l.tests < 4 then l.tests else 4) as real -
                             (if l.ageBars < 20 then l.ageBars else 20) as real
  }

  lemma TestPasses(x: real, price: real)
    requires price != 0.0
    ensures Abs(x - price) / price <= 0.001 <==>
            price < 0.0 || (1000.0 * (x - price) <= price && 1000.0 * (price - x) <= price)
  {
    var d := Abs(x - price);
    if price > 0.0 {
      AtMost(d, price, 0.001);
    } else {
      AtMost(d, -price, 0.0);
      assert d / price == -(d / -price);
      AtMost(-d, -price, 0.0);
    }
  }

  lemma AtMost(d: real, p: real, m: real)
    requires p > 0.0
    ensures d / p <= m <==> d <= m * p
  {
    var q := d / p;
    assert d == q * p;
    assert q > m ==> (q - m) * p > 0.0;
    assert q <= m ==> (m - q) * p >= 0.0;
  }

  lemma LevelTestsSnoc(cs: seq<Candle>, c: Candle, price: real, kind: SwingKind)
    requires price != 0.0
    ensures LevelTests(cs + [c], price, kind) ==
            LevelTests(cs, price, kind) + (if Abs(PriceOf(c, kind) - price) / price <= 0.001 then 1 else 0)
  {
    hide Abs;
    FilterConcat(cs, [c], (c: Candle) => Abs(PriceOf(c, kind) - price) / price <= 0.001);
    assert [c][1..] == [];
  }

  lemma {:induction false} TestsCounted(cs: seq<Candle>, price: real, kind: SwingKind)
    ensures LevelTests(cs, price, kind) == Tests(cs, price, kind) >= 0
  {
    if cs != [] && price != 0.0 {
      hide LevelTests, Abs;
      var n := |cs| - 1;
      TestsCounted(cs[..n], price, kind);
      LevelTestsSnoc(cs[..n], cs[n], price, kind);
      assert cs == cs[..n] + [cs[n]];
      TestPasses(PriceOf(cs[n], kind), price);
    }
  }

  lemma LevelIsLevel(cs: seq<Candle>, i: nat, kind: SwingKind)
    requires 2 <= i < |cs| - 2
    ensures IsSwing(cs, i, kind) <==> IsLevel(cs, i, kind, LevelAt(cs, i, kind))
    ensures forall l :: IsLevel(cs, i, kind, l) ==> l == LevelAt(cs, i, kind)
  {
    hide LevelTests, Tests;
    TestsCounted(cs, PriceOf(cs[i], kind), kind);
  }

  lemma {:induction false} SwingsBelowAreLevels(cs: seq<Candle>, n: nat, kind: SwingKind, l: FeatureLevel)
    requires n <= |cs| - 2 || n == 0
    ensures l in SwingsBelow(cs, n, kind) <==> exists i :: 2 <= i < n && IsLevel(cs, i, kind, l)
  {
    hide IsLevel, IsSwing, LevelAt;
    if n > 2 {
      SwingsBelowAreLevels(cs, n - 1, kind, l);
      LevelIsLevel(cs, n - 1, kind);
    }
  }

  /** A swing is listed exactly for each extreme centre with two bars on either side. */
  lemma SwingsAreExtremes(cs: seq<Candle>, kind: SwingKind, l: FeatureLevel)
    ensures l in Swings(cs, kind) <==> exists i :: 2 <= i < |cs| - 2 && IsLevel(cs, i, kind, l)
  {
    SwingsBelowAreLevels(cs, if |cs| < 2 then 0 else |cs| - 2, kind, l);
  }
}
