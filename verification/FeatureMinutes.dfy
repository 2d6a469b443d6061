/** With minute-aligned candles and session times, nothing the engine derives from candles can tell
    two instants of one minute apart. This is what lets its caches key on the minute. */
module FeatureMinutes {
  import opened Lists
  import opened Clock
  import opened Candles
  import opened Indicators
  import opened FeatureState

  ghost predicate AlignedCandle(c: Candle) { Aligned(c.start) && Aligned(c.end) }

  ghost predicate AlignedCandles(cs: seq<Candle>) { forall i :: 0 <= i < |cs| ==> AlignedCandle(cs[i]) }

  ghost predicate AlignedHistory(h: History) { forall date :: date in h ==> AlignedCandles(h[date]) }

  ghost predicate AlignedSession(s: Session) { Aligned(s.start) && Aligned(s.openingEnd) }

  lemma {:induction false} BisectEndSameMinute(cs: seq<Candle>, t: Time, u: Time, low: nat, high: nat)
    requires low <= high <= |cs| && AlignedCandles(cs) && MinuteOf(t) == MinuteOf(u)
    ensures BisectEndIn(cs, t, low, high) == BisectEndIn(cs, u, low, high)
    decreases high - low
  {
    if low < high {
      var middle := (low + high) / 2;
      assert AlignedCandle(cs[middle]);
      AlignedBoundary(cs[middle].end, t, u);
      BisectEndSameMinute(cs, t, u, middle + 1, high);
      BisectEndSameMinute(cs, t, u, low, middle);
    }
  }

  lemma CompleteEndedBySameMinute(cs: seq<Candle>, t: Time, u: Time)
    requires AlignedCandles(cs) && MinuteOf(t) == MinuteOf(u)
    ensures CompleteEndedBy(cs, t) == CompleteEndedBy(cs, u)
  {
    forall c | c in cs ensures c.end <= t <==> c.end <= u {
      AlignedBoundary(c.end, t, u);
    }
    FilterCongruent(cs, (c: Candle) => c.complete && c.end <= t, (c: Candle) => c.complete && c.end <= u);
  }

  lemma EndedBySame(cs: seq<Candle>, t: Time, u: Time)
    requires forall c :: c in cs ==> (c.end <= t <==> c.end <= u)
    ensures EndedBy(cs, t) == EndedBy(cs, u)
  {
    FilterCongruent(cs, (c: Candle) => c.end <= t, (c: Candle) => c.end <= u);
  }

  lemma EndedBySameMinute(cs: seq<Candle>, t: Time, u: Time)
    requires AlignedCandles(cs) && MinuteOf(t) == MinuteOf(u)
    ensures EndedBy(cs, t) == EndedBy(cs, u)
  {
    forall c | c in cs ensures c.end <= t <==> c.end <= u {
      AlignedBoundary(c.end, t, u);
    }
    EndedBySame(cs, t, u);
  }

  lemma PositiveSameMinute(cs: seq<Candle>, t: Time, u: Time)
    requires AlignedCandles(cs) && MinuteOf(t) == MinuteOf(u)
    ensures PositiveEndedBy(cs, t) == PositiveEndedBy(cs, u)
  {
    forall c | c in cs ensures c.end <= t <==> c.end <= u {
      AlignedBoundary(c.end, t, u);
    }
    FilterCongruent(cs, (c: Candle) => c.end <= t && c.close > 0.0, (c: Candle) => c.end <= u && c.close > 0.0);
  }

  lemma BaselineSameMinute(cs: seq<Candle>, t: Time, u: Time)
    requires AlignedCandles(cs) && MinuteOf(t) == MinuteOf(u)
    ensures RollingBaseline(cs, t, 5) == RollingBaseline(cs, u, 5)
  {
    assert MinuteOf(t - 300) == MinuteOf(u - 300);
    PositiveSameMinute(cs, t - 300, u - 300);
  }

  lemma {:induction false} LeastStartAligned(cs: seq<Candle>)
    requires AlignedCandles(cs)
    ensures Aligned(LeastStart(cs))
  {
    if cs != [] {
      assert AlignedCandle(cs[0]);
      if |cs| > 1 { LeastStartAligned(cs[1..]); }
    }
  }

  lemma AlignedShift(x: Time, y: Time, z: Time)
    requires Aligned(x) && Aligned(y) && Aligned(z)
    ensures Aligned(x - y + z)
  {
  }

  lemma SessionVolumeSameMinute(cs: seq<Candle>, start: Time, t: Time, u: Time)
    requires AlignedCandles(cs) && Aligned(start) && MinuteOf(t) == MinuteOf(u)
    ensures SessionVolume(cs, Elapsed(start, t)) == SessionVolume(cs, Elapsed(start, u))
  {
    LeastStartAligned(cs);
    var first := LeastStart(cs);
    AlignedBoundary(start, t, u);
    hide LeastStart, Aligned, MinuteOf;
    forall c | c in cs ensures c.end <= first + Elapsed(start, t) <==> c.end <= first + Elapsed(start, u) {
      assert AlignedCandle(c);
      AlignedShift(c.end, first, start);
      AlignedBoundary(c.end - first + start, t, u);
    }
    EndedBySame(cs, first + Elapsed(start, t), first + Elapsed(start, u));
  }

  lemma {:induction false} SessionVolumesSameMinute(dates: seq<int>, h: History, start: Time, t: Time, u: Time)
    requires forall i :: 0 <= i < |dates| ==> dates[i] in h
    requires AlignedHistory(h) && Aligned(start) && MinuteOf(t) == MinuteOf(u)
    ensures SessionVolumes(dates, h, Elapsed(start, t)) == SessionVolumes(dates, h, Elapsed(start, u))
  {
    if dates != [] {
      var date := dates[0];
      assert date in h && AlignedCandles(h[date]);
      SessionVolumeSameMinute(h[date], start, t, u);
      SessionVolumesSameMinute(dates[1..], h, start, t, u);
    }
  }

  lemma RvolSameMinute(current: seq<Candle>, start: Time, t: Time, u: Time, h: History)
    requires AlignedCandles(current) && AlignedHistory(h) && Aligned(start) && MinuteOf(t) == MinuteOf(u)
    ensures RvolAtTime(current, start, t, h) == RvolAtTime(current, start, u, h)
  {
    EndedBySameMinute(current, t, u);
    var dates := Descending(h.Keys);
    if |dates| >= 10 {
      forall i | 0 <= i < 10 ensures dates[..10][i] in h {
        assert dates[i] in dates;
      }
      SessionVolumesSameMinute(dates[..10], h, start, t, u);
    }
  }

  lemma OpeningRangeSameMinute(cs: seq<Candle>, start: Time, end: Time, t: Time, u: Time, atr: Option<real>)
    requires Aligned(end) && MinuteOf(t) == MinuteOf(u)
    ensures ComputeOpeningRange(cs, start, end, t, atr) == ComputeOpeningRange(cs, start, end, u, atr)
  {
    AlignedBoundary(end, t, u);
  }

  lemma SelectedAligned(one: seq<Candle>, from: nat, to: nat)
    requires from <= |one| && to <= |one| && AlignedCandles(one)
    ensures AlignedCandles(Complete(Slice(one, from, to)))
  {
    var cs := Complete(Slice(one, from, to));
    forall i | 0 <= i < |cs| ensures AlignedCandle(cs[i]) {
      assert cs[i] in Slice(one, from, to);
      assert cs[i] in one;
    }
  }

  /** The whole calculation is a function of the minute. */
  lemma DeriveSameMinute(
      s: Session, one: seq<Candle>, five: seq<Candle>, daily: seq<Candle>, h: History, t: Time, u: Time)
    requires AlignedSession(s) && AlignedCandles(one) && AlignedCandles(five) && AlignedHistory(h)
    requires MinuteOf(t) == MinuteOf(u)
    ensures Derive(s, one, five, daily, h, t) == Derive(s, one, five, daily, h, u)
  {
    hide BisectEndIn, RvolAtTime, ComputeOpeningRange, RollingBaseline, RegularSession, Complete, Vwap, Swings,
         StartingFrom, CompleteEndedBy, AtrOfBars;
    BisectEndSameMinute(one, t, u, 0, |one|);
    BisectEndSameMinute(five, t, u, 0, |five|);
    var from, to := InsertionPoint(one, s.start), BisectEnd(one, t);
    var current := Complete(Slice(one, from, to));
    SelectedAligned(one, from, to);
    RvolSameMinute(current, s.start, t, u, h);
    OpeningRangeSameMinute(current, s.openingStart, s.openingEnd, t, u, Atr14(CompleteEndedBy(daily, s.start)));
    BaselineSameMinute(current, t, u);
  }

  lemma DeriveContextSameMinute(s: Session, five: seq<Candle>, daily: seq<Candle>, t: Time, u: Time)
    requires AlignedCandles(five) && MinuteOf(t) == MinuteOf(u)
    ensures DeriveContext(s, five, daily, t) == DeriveContext(s, five, daily, u)
  {
    hide RegularSession, StartingFrom, CompleteEndedBy;
    CompleteEndedBySameMinute(five, t, u);
  }
}
