/** Candle series and the scans over them (services/scanner/app/feature_engine.py:741-836). */
module Candles {
  import opened Lists
  import opened Clock

  type InstrumentId = int

  datatype Timeframe = OneMinute | FiveMinutes | OneDay

  datatype Candle = Candle(
    id: InstrumentId, symbol: string, timeframe: Timeframe, start: Time, end: Time,
    open: real, high: real, low: real, close: real, volume: int, complete: bool)

  ghost predicate Increasing(cs: seq<Candle>) {
    forall i, j :: 0 <= i < j < |cs| ==> cs[i].start < cs[j].start
  }

  ghost predicate EndsIncreasing(cs: seq<Candle>) {
    forall i, j :: 0 <= i < j < |cs| ==> cs[i].end < cs[j].end
  }

  // ------------------------------------------------------------------ linear scans

  function Complete(cs: seq<Candle>): seq<Candle> { Filter(cs, (c: Candle) => c.complete) }

  function EndedBy(cs: seq<Candle>, t: Time): seq<Candle> { Filter(cs, (c: Candle) => c.end <= t) }

  function StartingFrom(cs: seq<Candle>, t: Time): seq<Candle> { Filter(cs, (c: Candle) => t <= c.start) }

  function CompleteEndedBy(cs: seq<Candle>, t: Time): seq<Candle> {
    Filter(cs, (c: Candle) => c.complete && c.end <= t)
  }

  /** First index whose candle does not start before `start`. */
  function InsertionPoint(cs: seq<Candle>, start: Time): (k: nat)
    ensures k <= |cs|
    ensures forall i :: 0 <= i < k ==> cs[i].start < start
    ensures k < |cs| ==> start <= cs[k].start
  {
    if cs == [] || start <= cs[0].start then 0 else 1 + InsertionPoint(cs[1..], start)
  }

  // ------------------------------------------------------------------ bisection

  /** The index an interval bisection on candle ends reaches. On a series whose ends are not
      ordered the result depends on the probes, so the probes are part of the definition. */
  function BisectEndIn(cs: seq<Candle>, t: Time, low: nat, high: nat): (k: nat)
    requires low <= high <= |cs|
    ensures low <= k <= high
    decreases high - low
  {
    if low == high then low
    else
      var middle := (low + high) / 2;
      if cs[middle].end <= t then BisectEndIn(cs, t, middle + 1, high)
      else BisectEndIn(cs, t, low, middle)
  }

  function BisectEnd(cs: seq<Candle>, t: Time): (k: nat)
    ensures k <= |cs|
  {
    BisectEndIn(cs, t, 0, |cs|)
  }

  lemma {:induction false} BisectEndPartitionsIn(cs: seq<Candle>, t: Time, low: nat, high: nat)
    requires low <= high <= |cs| && EndsIncreasing(cs)
    requires forall i :: 0 <= i < low ==> cs[i].end <= t
    requires forall i :: high <= i < |cs| ==> t < cs[i].end
    ensures var k := BisectEndIn(cs, t, low, high);
            && (forall i :: 0 <= i < k ==> cs[i].end <= t)
            && (forall i :: k <= i < |cs| ==> t < cs[i].end)
    decreases high - low
  {
    if low < high {
      var middle := (low + high) / 2;
      if cs[middle].end <= t {
        BisectEndPartitionsIn(cs, t, middle + 1, high);
      } else {
        BisectEndPartitionsIn(cs, t, low, middle);
      }
    }
  }

  /** With ordered ends the bisection returns the one partition point of the series. */
  lemma BisectEndPartitions(cs: seq<Candle>, t: Time, k: nat)
    requires EndsIncreasing(cs) && k <= |cs|
    ensures k == BisectEnd(cs, t) <==>
            (forall i :: 0 <= i < k ==> cs[i].end <= t) && (forall i :: k <= i < |cs| ==> t < cs[i].end)
  {
    BisectEndPartitionsIn(cs, t, 0, |cs|);
    var b := BisectEnd(cs, t);
    if (forall i :: 0 <= i < k ==> cs[i].end <= t) && (forall i :: k <= i < |cs| ==> t < cs[i].end) {
      assert k < |cs| ==> t < cs[k].end;
      assert b < |cs| ==> t < cs[b].end;
    }
  }

  method BisectCandleStart(cs: seq<Candle>, start: Time) returns (low: nat)
    requires Increasing(cs)
    ensures low == InsertionPoint(cs, start)
    ensures low <= |cs|
    ensures forall i :: 0 <= i < low ==> cs[i].start < start
    ensures forall i :: low <= i < |cs| ==> start <= cs[i].start
  {
    low := 0;
    var high := |cs|;
    while low < high
      invariant 0 <= low <= high <= |cs|
      invariant forall i :: 0 <= i < low ==> cs[i].start < start
      invariant forall i :: high <= i < |cs| ==> start <= cs[i].start
    {
      var middle := (low + high) / 2;
      if cs[middle].start < start {
        low := middle + 1;
      } else {
        high := middle;
      }
    }
    var k := InsertionPoint(cs, start);
    assert k < |cs| ==> start <= cs[k].start;
    assert low < |cs| ==> start <= cs[low].start;
  }

  method BisectCandleEnd(cs: seq<Candle>, t: Time) returns (low: nat)
    ensures low == BisectEnd(cs, t)
  {
    low := 0;
    var high := |cs|;
    while low < high
      invariant 0 <= low <= high <= |cs|
      invariant BisectEndIn(cs, t, low, high) == BisectEnd(cs, t)
    {
      var middle := (low + high) / 2;
      if cs[middle].end <= t {
        low := middle + 1;
      } else {
        high := middle;
      }
    }
  }

  /** Complete candles below the bisection point. */
  function CompletedCandles(cs: seq<Candle>, t: Time): seq<Candle> {
    Complete(cs[..BisectEnd(cs, t)])
  }

  method ComputeCompletedCandles(cs: seq<Candle>, t: Time) returns (result: seq<Candle>)
    ensures result == CompletedCandles(cs, t)
  {
    var low, high := 0, |cs|;
    while low < high
      invariant 0 <= low <= high <= |cs|
      invariant BisectEndIn(cs, t, low, high) == BisectEnd(cs, t)
    {
      var middle := (low + high) / 2;
      if cs[middle].end <= t {
        low := middle + 1;
      } else {
        high := middle;
      }
    }
    result := Complete(cs[..low]);
  }

  /** The bisected selection is the plain filter over the whole series. */
  lemma CompletedCandlesIsFilter(cs: seq<Candle>, t: Time)
    requires EndsIncreasing(cs)
    ensures CompletedCandles(cs, t) == CompleteEndedBy(cs, t)
  {
    var k := BisectEnd(cs, t);
    BisectEndPartitions(cs, t, k);
    var both := (c: Candle) => c.complete && c.end <= t;
    assert cs == cs[..k] + cs[k..];
    FilterConcat(cs[..k], cs[k..], both);
    FilterNone(cs[k..], both);
    FilterCongruent(cs[..k], both, (c: Candle) => c.complete);
    assert CompleteEndedBy(cs, t) == Filter(cs, both) by {
      FilterCongruent(cs, both, (c: Candle) => c.complete && c.end <= t);
    }
    assert Complete(cs[..k]) == Filter(cs[..k], both) by {
      FilterCongruent(cs[..k], both, (c: Candle) => c.complete);
    }
  }

  // ------------------------------------------------------------------ rolling baseline

  /** `max(cs, key=end)`: the first of the candles that end last. */
  function LastEnding(cs: seq<Candle>): (c: Candle)
    requires cs != []
    ensures c in cs
    ensures forall i :: 0 <= i < |cs| ==> cs[i].end <= c.end
  {
    if |cs| == 1 then cs[0]
    else
      var rest := LastEnding(cs[1..]);
      if rest.end <= cs[0].end then cs[0] else rest
  }

  function PositiveEndedBy(cs: seq<Candle>, boundary: Time): seq<Candle> {
    Filter(cs, (c: Candle) => c.end <= boundary && c.close > 0.0)
  }

  function RollingBaseline(cs: seq<Candle>, t: Time, minutes: nat): Option<real> {
    var eligible := PositiveEndedBy(cs, t - 60 * minutes);
    if eligible == [] then None else Some(LastEnding(eligible).close)
  }

  /** The close found by walking down from index `n`. */
  function NewestPositiveClose(cs: seq<Candle>, n: nat): Option<real>
    requires n <= |cs|
  {
    if n == 0 then None
    else if cs[n - 1].complete && cs[n - 1].close > 0.0 then Some(cs[n - 1].close)
    else NewestPositiveClose(cs, n - 1)
  }

  function LastCompletedClose(cs: seq<Candle>, boundary: Time): Option<real> {
    NewestPositiveClose(cs, BisectEnd(cs, boundary))
  }

  method ComputeLastCompletedClose(cs: seq<Candle>, boundary: Time) returns (close: Option<real>)
    ensures close == LastCompletedClose(cs, boundary)
  {
    var index := BisectCandleEnd(cs, boundary);
    close := None;
    for position := index downto 0
      invariant NewestPositiveClose(cs, position) == LastCompletedClose(cs, boundary)
    {
      var candle := cs[position];
      if candle.complete && candle.close > 0.0 {
        return Some(candle.close);
      }
    }
  }

  lemma CompleteSnoc(cs: seq<Candle>, c: Candle)
    ensures Complete(cs + [c]) == Complete(cs) + (if c.complete then [c] else [])
  {
    FilterConcat(cs, [c], (c: Candle) => c.complete);
  }

  lemma PositiveEndedBySnoc(cs: seq<Candle>, c: Candle, t: Time)
    ensures PositiveEndedBy(cs + [c], t) ==
            PositiveEndedBy(cs, t) + (if c.end <= t && c.close > 0.0 then [c] else [])
  {
    FilterConcat(cs, [c], (c: Candle) => c.end <= t && c.close > 0.0);
  }

  lemma EligibleEndBefore(cs: seq<Candle>, n: nat, boundary: Time, d: Candle)
    requires n < |cs| && EndsIncreasing(cs)
    requires d in PositiveEndedBy(Complete(cs[..n]), boundary)
    ensures d.end < cs[n].end
  {
    assert d in cs[..n];
    var i :| 0 <= i < n && cs[..n][i] == d;
  }

  lemma BaselineOfLaterCandle(earlier: seq<Candle>, c: Candle, boundary: Time)
    requires c.end <= boundary
    requires forall d :: d in PositiveEndedBy(earlier, boundary) ==> d.end < c.end
    ensures RollingBaseline(earlier + [c], boundary, 0) ==
            if c.close > 0.0 then Some(c.close) else RollingBaseline(earlier, boundary, 0)
  {
    var kept := PositiveEndedBy(earlier, boundary);
    PositiveEndedBySnoc(earlier, c, boundary);
    assert kept + [] == kept;
    LastEndingIsLast(kept, c);
  }

  /** One more candle either becomes the baseline or leaves it as it was. */
  lemma BaselineSnoc(cs: seq<Candle>, n: nat, boundary: Time)
    requires n < |cs| && EndsIncreasing(cs) && cs[n].end <= boundary
    ensures RollingBaseline(Complete(cs[..n + 1]), boundary, 0) ==
            if cs[n].complete && cs[n].close > 0.0 then Some(cs[n].close)
            else RollingBaseline(Complete(cs[..n]), boundary, 0)
  {
    assert cs[..n + 1] == cs[..n] + [cs[n]];
    CompleteSnoc(cs[..n], cs[n]);
    forall d | d in PositiveEndedBy(Complete(cs[..n]), boundary) ensures d.end < cs[n].end {
      EligibleEndBefore(cs, n, boundary, d);
    }
    BaselineOfLaterCandle(Complete(cs[..n]), cs[n], boundary);
  }

  lemma {:induction false} NewestPositiveCloseIsBaseline(cs: seq<Candle>, n: nat, boundary: Time)
    requires n <= |cs| && EndsIncreasing(cs)
    requires forall i :: 0 <= i < n ==> cs[i].end <= boundary
    ensures NewestPositiveClose(cs, n) == RollingBaseline(Complete(cs[..n]), boundary, 0)
  {
    if n > 0 {
      hide RollingBaseline, Complete, EndsIncreasing;
      var m := n - 1;
      assert cs[..m + 1] == cs[..n];
      NewestPositiveCloseIsBaseline(cs, m, boundary);
      BaselineSnoc(cs, m, boundary);
    }
  }

  lemma {:induction false} LastEndingIsLast(cs: seq<Candle>, c: Candle)
    requires forall d :: d in cs ==> d.end < c.end
    ensures LastEnding(cs + [c]) == c
  {
    if cs != [] {
      LastEndingIsLast(cs[1..], c);
      assert (cs + [c])[1..] == cs[1..] + [c];
    }
  }

  /** The walk down from the bisection point finds what the full rolling baseline finds. */
  lemma LastCompletedCloseIsBaseline(cs: seq<Candle>, boundary: Time)
    requires EndsIncreasing(cs)
    ensures LastCompletedClose(cs, boundary) == RollingBaseline(CompleteEndedBy(cs, boundary), boundary, 0)
  {
    BisectEndPartitions(cs, boundary, BisectEnd(cs, boundary));
    NewestPositiveCloseIsBaseline(cs, BisectEnd(cs, boundary), boundary);
    CompletedCandlesIsFilter(cs, boundary);
  }
}
