/** The feature engine object: its methods update the fields in place and are proved to perform
    the steps of FeatureState.dfy (services/scanner/app/feature_engine.py:70-172, 307-447). */
module FeatureEngines {
  import opened Lists
  import opened Clock
  import opened Candles
  import opened Indicators
  import opened FeatureState

  /** Every series and every historical date is strictly increasing by start. */
  ghost predicate SeriesOrdered(series: map<InstrumentId, map<Timeframe, seq<Candle>>>) {
    forall id, tf :: id in series && tf in series[id] ==> Increasing(series[id][tf])
  }

  ghost predicate HistoryOrdered(h: History) {
    forall date :: date in h ==> Increasing(h[date])
  }

  ghost predicate WellIndexed(e: Engine) {
    && SeriesOrdered(e.series)
    && (forall id :: id in e.history ==> HistoryOrdered(e.history[id]))
    && (forall id :: id in e.quotes ==> e.quotes[id].id == id)
  }

  lemma SeriesOfOrdered(e: Engine, id: InstrumentId, tf: Timeframe)
    requires WellIndexed(e)
    ensures Increasing(SeriesOf(e, id, tf))
    ensures HistoryOrdered(HistoryOf(e, id))
  {
  }

  lemma PutIncreasing(cs: seq<Candle>, c: Candle)
    requires Increasing(cs)
    ensures Increasing(Put(cs, c))
    ensures |Put(cs, c)| == |cs| + (if Holds(cs, c.start) then 0 else 1)
  {
  }

  /** Putting a candle replaces what had its start and keeps the rest. */
  lemma PutMembers(cs: seq<Candle>, c: Candle, d: Candle)
    requires Increasing(cs)
    ensures d in Put(cs, c) <==> d == c || (d in cs && d.start != c.start)
  {
    var k := InsertionPoint(cs, c.start);
    var r := Put(cs, c);
    assert r[k] == c;
    if d in cs && d.start != c.start {
      var i :| 0 <= i < |cs| && cs[i] == d;
      assert r[if Holds(cs, c.start) || i < k then i else i + 1] == d;
    }
    if d in r && d != c {
      var j :| 0 <= j < |r| && r[j] == d;
      var i := if Holds(cs, c.start) || j < k then j else j - 1;
      assert cs[i] == d;
    }
  }

  lemma AddCandleSeries(e: Engine, s: Session, c: Candle, id: InstrumentId, tf: Timeframe)
    ensures SeriesOf(AddCandle(e, s, c), id, tf) ==
            if id == c.id && tf == c.timeframe then Put(SeriesOf(e, id, tf), c) else SeriesOf(e, id, tf)
  {
  }

  lemma AddCandleHistory(e: Engine, s: Session, c: Candle, id: InstrumentId)
    ensures HistoryOf(AddCandle(e, s, c), id) ==
            if id == c.id && Historical(s, c) then PutHistory(HistoryOf(e, id), c) else HistoryOf(e, id)
  {
  }

  lemma PutHistoryOrdered(h: History, c: Candle)
    requires HistoryOrdered(h)
    ensures HistoryOrdered(PutHistory(h, c))
  {
    var date := UtcDate(c.start);
    PutIncreasing(if date in h then h[date] else [], c);
  }

  lemma AddCandleWellIndexed(e: Engine, s: Session, c: Candle)
    requires WellIndexed(e)
    ensures WellIndexed(AddCandle(e, s, c))
  {
    SeriesOfOrdered(e, c.id, c.timeframe);
    PutIncreasing(SeriesOf(e, c.id, c.timeframe), c);
    PutHistoryOrdered(HistoryOf(e, c.id), c);
  }

  /** Bisects for the start of the candle, then replaces or inserts. */
  method PutInOrder(cs: seq<Candle>, c: Candle) returns (result: seq<Candle>, replaced: bool)
    requires Increasing(cs)
    ensures result == Put(cs, c)
    ensures replaced == Holds(cs, c.start)
  {
    var index := BisectCandleStart(cs, c.start);
    if index < |cs| && cs[index].start == c.start {
      return cs[index := c], true;
    }
    return cs[..index] + [c] + cs[index..], false;
  }

  method DeriveFeatures(s: Session, one: seq<Candle>, five: seq<Candle>, daily: seq<Candle>, history: History, t: Time)
    returns (derived: Derived)
    requires Increasing(one)
    ensures derived == Derive(s, one, five, daily, history, t)
  {
    var currentStart := BisectCandleStart(one, s.start);
    var currentEnd := BisectCandleEnd(one, t);
    var current := Complete(Slice(one, currentStart, currentEnd));
    var completed := ComputeCompletedCandles(five, t);
    var rsiBars := RegularSession(s, completed);
    var fiveMinute := StartingFrom(rsiBars, s.start);
    var days := CompleteEndedBy(daily, s.start);
    var atr := Atr(days, 14);
    var highs, lows := ConfirmedSwings(fiveMinute);
    derived := Derived(
      current, fiveMinute, days, rsiBars, Vwap(current), atr,
      RvolAtTime(current, s.start, t, history),
      ComputeOpeningRange(current, s.openingStart, s.openingEnd, t, atr),
      highs, lows, RollingBaseline(current, t, 5));
  }

  /** Entering a session leaves candles and quotes alone. */
  lemma EnteredKeepsCandles(e: Engine, s: Session)
    ensures var f := Entered(e, s);
            && f.session == Some(s) && f.candles == e.candles && f.series == e.series && f.history == e.history
            && f.quotes == e.quotes
  {
    hide InstrumentMap, CandidateIds;
  }

  lemma StartSessionWellIndexed(e: Engine, s: Session)
    ensures WellIndexed(e) ==> WellIndexed(StartSession(e, s).0)
  {
    hide Entered, MarketBenchmarks;
    EnteredKeepsCandles(e, s);
    EnteredKeepsCandles(EMPTY, s);
  }

  lemma ForgetWellIndexed(e: Engine, ids: set<InstrumentId>)
    requires WellIndexed(e)
    ensures WellIndexed(Forget(e, ids))
  {
  }

  lemma TakeQuoteWellIndexed(e: Engine, s: Session, q: Quote, full: bool)
    requires WellIndexed(e)
    ensures WellIndexed(TakeQuote(e, s, q, full))
  {
    hide Remember, FullSnapshot, BenchmarkSnapshot;
  }

  lemma NextQuote(e: Engine, s: Session, quotes: seq<Quote>, i: nat, benchmarks: bool)
    requires i < |quotes|
    ensures var q, all := quotes[i], AddQuotes(e, s, quotes[i..], benchmarks);
            if !Known(e.instruments, q.id, q.symbol) then all == QuoteResult(e, [], Some(UnknownInstrument(q.symbol)))
            else if InvalidQuoteValues(q) then
              all == if e.instruments[q.id].role.Benchmark?
                     then AddQuotes(DropQuote(e, q.id), s, quotes[i + 1..], benchmarks)
                     else QuoteResult(e, [], Some(InvalidQuote(q.symbol)))
            else
              var next := TakeQuote(e, s, q, benchmarks || q.id in e.candidates);
              var rest := AddQuotes(next, s, quotes[i + 1..], benchmarks);
              all == if rest.error.Some? then rest
                     else rest.(snapshots := [next.snapshots[q.id]] + rest.snapshots)
  {
    hide TakeQuote, DropQuote, InvalidQuoteValues;
    assert quotes[i..][0] == quotes[i] && quotes[i..][1..] == quotes[i + 1..];
  }

  lemma NoMoreQuotes(e: Engine, s: Session, quotes: seq<Quote>, benchmarks: bool)
    requires quotes == []
    ensures AddQuotes(e, s, quotes, benchmarks) == QuoteResult(e, [], None)
  {
  }

  function Dropped(e: Engine, c: Candle): set<InstrumentId> {
    if Holds(SeriesOf(e, c.id, c.timeframe), c.start) then {c.id} else {}
  }

  predicate SeriesReplaced(
      before: map<InstrumentId, map<Timeframe, seq<Candle>>>, c: Candle,
      after: map<InstrumentId, map<Timeframe, seq<Candle>>>) {
    var frames := if c.id in before then before[c.id] else map[];
    var line := if c.timeframe in frames then frames[c.timeframe] else [];
    after == before[c.id := frames[c.timeframe := Put(line, c)]]
  }

  lemma SameFeatures(e: Engine, f: Engine, s: Session, id: InstrumentId, t: Time)
    requires e.series == f.series && e.history == f.history
    requires id in e.featureCache <==> id in f.featureCache
    requires id in e.featureCache ==> e.featureCache[id] == f.featureCache[id]
    ensures Features(e, s, id, t) == Features(f, s, id, t)
    ensures CacheKeyOf(e, s, id, t) == CacheKeyOf(f, s, id, t)
  {
    hide Derive;
  }

  lemma SameWork(e: Engine, f: Engine, s: Session, q: Quote)
    requires e.series == f.series && e.history == f.history
    requires q.id in e.featureCache <==> q.id in f.featureCache
    requires q.id in e.featureCache ==> e.featureCache[q.id] == f.featureCache[q.id]
    ensures Remember(e, s, q) == Remember(f, s, q)
    ensures FullSnapshot(e, s, q) == FullSnapshot(f, s, q)
  {
    hide Features, CacheKeyOf;
    SameFeatures(e, f, s, q.id, q.timestamp);
  }

  lemma RefreshedOneMore(e: Engine, s: Session, done: set<InstrumentId>, id: InstrumentId)
    requires id in e.quotes
    ensures RefreshedFeatures(e, s, done + {id}) == RefreshedFeatures(e, s, done)[id := Remember(e, s, e.quotes[id])]
    ensures RefreshedSnapshots(e, s, done + {id}) ==
            RefreshedSnapshots(e, s, done)[id := FullSnapshot(e, s, e.quotes[id])]
  {
    hide Remember, FullSnapshot;
  }

  /** Recalculating one more instrument extends the refreshed set by it: the work on the others
      does not reach its cache entry, its series or its quote. */
  lemma RefreshOneMore(e: Engine, s: Session, done: set<InstrumentId>, id: InstrumentId)
    requires id !in done && id in e.quotes && e.quotes[id].id == id
    ensures var now, q := Refresh(e, s, done), e.quotes[id];
            Refresh(e, s, done + {id}) ==
            now.(featureCache := now.featureCache[id := Remember(now, s, q)],
                 snapshots := now.snapshots[id := FullSnapshot(now, s, q)])
  {
    hide Remember, FullSnapshot, RefreshedFeatures, RefreshedSnapshots;
    var now, q := Refresh(e, s, done), e.quotes[id];
    assert id !in RefreshedFeatures(e, s, done) by {
      RefreshedKeys(e, s, done);
    }
    SameWork(e, now, s, q);
    RefreshedOneMore(e, s, done, id);
    UnionUpdate(e.featureCache, RefreshedFeatures(e, s, done), id, Remember(e, s, q));
    UnionUpdate(e.snapshots, RefreshedSnapshots(e, s, done), id, FullSnapshot(e, s, q));
  }

  lemma UnionUpdate<K, V>(m: map<K, V>, n: map<K, V>, k: K, v: V)
    ensures m + n[k := v] == (m + n)[k := v]
  {
  }

  lemma RefreshedKeys(e: Engine, s: Session, ids: set<InstrumentId>)
    ensures RefreshedFeatures(e, s, ids).Keys == ids * e.quotes.Keys
    ensures RefreshedSnapshots(e, s, ids).Keys == ids * e.quotes.Keys
  {
    hide Remember, FullSnapshot;
  }

  lemma RefreshUnquoted(e: Engine, s: Session, done: set<InstrumentId>, id: InstrumentId)
    requires id !in e.quotes
    ensures Refresh(e, s, done + {id}) == Refresh(e, s, done)
  {
    hide Remember, FullSnapshot;
    assert RefreshedFeatures(e, s, done + {id}) == RefreshedFeatures(e, s, done);
    assert RefreshedSnapshots(e, s, done + {id}) == RefreshedSnapshots(e, s, done);
  }

  lemma RefreshNone(e: Engine, s: Session)
    ensures Refresh(e, s, {}) == e
  {
    hide Remember, FullSnapshot;
  }

  class FeatureEngine {
    var session: Option<Session>
    var instruments: map<InstrumentId, Instrument>
    var candidates: set<InstrumentId>
    var candles: map<CandleKey, Candle>
    var series: map<InstrumentId, map<Timeframe, seq<Candle>>>
    var history: map<InstrumentId, History>
    var quotes: map<InstrumentId, Quote>
    var snapshots: map<InstrumentId, Snapshot>
    var unavailable: set<InstrumentId>
    var featureCache: map<InstrumentId, CachedFeatures>
    var contextCache: map<InstrumentId, CachedContext>

    ghost function Model(): Engine
      reads this
    {
      Engine(session, instruments, candidates, candles, series, history, quotes, snapshots, unavailable,
             featureCache, contextCache)
    }

    ghost predicate Valid()
      reads this
    {
      WellIndexed(Model())
    }

    constructor ()
      ensures Valid() && Model() == EMPTY
    {
      session := None;
      instruments, candidates, candles := map[], {}, map[];
      series, history := map[], map[];
      quotes, snapshots, unavailable := map[], map[], {};
      featureCache, contextCache := map[], map[];
    }

    method BeginSession(s: Session) returns (error: Option<Error>)
      modifies this
      ensures (Model(), error) == StartSession(old(Model()), s)
      ensures old(Valid()) ==> Valid()
    {
      StartSessionWellIndexed(Model(), s);
      error := ReplaceSession(s);
    }

    method ReplaceSession(s: Session) returns (error: Option<Error>)
      modifies this
      ensures (Model(), error) == StartSession(old(Model()), s)
    {
      hide InstrumentMap, CandidateIds, MarketBenchmarks;
      if s.end <= s.start {
        return Some(EndNotAfterStart);
      }
      session := Some(s);
      instruments := InstrumentMap(s.instruments);
      candidates := CandidateIds(s.instruments);
      if MarketBenchmarks(s.instruments) > 1 {
        return Some(TwoMarketBenchmarks);
      }
      ClearMemories();
      return None;
    }

    method ClearMemories()
      modifies this`candles, this`series, this`history, this`quotes, this`snapshots, this`unavailable,
               this`featureCache, this`contextCache
      ensures candles == map[] && series == map[] && history == map[]
      ensures quotes == map[] && snapshots == map[] && unavailable == {}
      ensures featureCache == map[] && contextCache == map[]
    {
      candles, series, history := map[], map[], map[];
      quotes, snapshots, unavailable := map[], map[], {};
      featureCache, contextCache := map[], map[];
    }

    /** Enters the candle in the dictionary and in its series; a replacement drops both caches. */
    method IndexSeries(c: Candle)
      requires Increasing(SeriesOf(Model(), c.id, c.timeframe))
      modifies this`candles, this`series, this`featureCache, this`contextCache
      ensures candles == old(candles)[KeyOf(c) := c]
      ensures SeriesReplaced(old(series), c, series)
      ensures featureCache == old(featureCache) - Dropped(old(Model()), c)
      ensures contextCache == old(contextCache) - Dropped(old(Model()), c)
    {
      candles := candles[KeyOf(c) := c];
      var frames := if c.id in series then series[c.id] else map[];
      var line, replaced := PutInOrder(if c.timeframe in frames then frames[c.timeframe] else [], c);
      series := series[c.id := frames[c.timeframe := line]];
      if replaced {
        featureCache := featureCache - {c.id};
        contextCache := contextCache - {c.id};
      }
    }

    method IndexHistory(c: Candle)
      requires HistoryOrdered(HistoryOf(Model(), c.id))
      modifies this`history
      ensures history == old(history)[c.id := PutHistory(HistoryOf(old(Model()), c.id), c)]
    {
      var dates := if c.id in history then history[c.id] else map[];
      var date := UtcDate(c.start);
      var day, _ := PutInOrder(if date in dates then dates[date] else [], c);
      history := history[c.id := dates[date := day]];
    }

    /** One accepted candle of the ingest loop. */
    method Index(s: Session, c: Candle)
      requires Valid()
      modifies this
      ensures Valid()
      ensures Model() == AddCandle(old(Model()), s, c)
    {
      hide WellIndexed, PutHistory, Put;
      AddCandleWellIndexed(Model(), s, c);
      SeriesOfOrdered(Model(), c.id, c.timeframe);
      IndexSeries(c);
      if c.timeframe.OneMinute? && c.complete && c.start < s.start {
        IndexHistory(c);
      }
    }

    method Calculate(s: Session, q: Quote) returns (snapshot: Snapshot)
      requires Increasing(SeriesOf(Model(), q.id, OneMinute))
      modifies this`featureCache
      ensures snapshot == FullSnapshot(old(Model()), s, q)
      ensures featureCache == old(featureCache)[q.id := Remember(old(Model()), s, q)]
    {
      hide Derive;
      var frames := if q.id in series then series[q.id] else map[];
      var one := if OneMinute in frames then frames[OneMinute] else [];
      var five := if FiveMinutes in frames then frames[FiveMinutes] else [];
      var daily := if OneDay in frames then frames[OneDay] else [];
      var key := CacheKey(s.market, q.id, |one|, |five|, |daily|, MinuteOf(q.timestamp));
      if q.id in featureCache && featureCache[q.id].key == key {
        return Full(s.market, q, featureCache[q.id].derived);
      }
      var derived := DeriveFeatures(s, one, five, daily, if q.id in history then history[q.id] else map[], q.timestamp);
      featureCache := featureCache[q.id := CachedFeatures(key, derived)];
      return Full(s.market, q, derived);
    }

    method IngestCandles(batch: seq<Candle>) returns (error: Option<Error>)
      requires Valid()
      modifies this
      ensures Valid()
      ensures (Model(), error) == FeatureState.IngestCandles(old(Model()), batch)
    {
      if session.None? {
        return Some(NoSession);
      }
      var s := session.value;
      error := AddBatch(s, batch);
      if error.None? {
        RefreshBatch(s, BatchIds(batch));
      }
    }

    method AddBatch(s: Session, batch: seq<Candle>) returns (error: Option<Error>)
      requires Valid()
      modifies this
      ensures Valid()
      ensures (Model(), error) == AddCandles(old(Model()), s, batch)
    {
      hide WellIndexed, AddCandle;
      for i := 0 to |batch|
        invariant Valid()
        invariant AddCandles(Model(), s, batch[i..]) == AddCandles(old(Model()), s, batch)
      {
        var c := batch[i];
        assert batch[i..][0] == c && batch[i..][1..] == batch[i + 1..];
        if c.id !in instruments || instruments[c.id].symbol != c.symbol {
          return Some(UnknownInstrument(c.symbol));
        }
        if c.end <= c.start {
          return Some(InvalidRange(c.symbol));
        }
        if c.volume < 0 || c.low > c.high {
          return Some(InvalidValues(c.symbol));
        }
        Index(s, c);
      }
      return None;
    }

    method RefreshBatch(s: Session, ids: set<InstrumentId>)
      requires Valid()
      modifies this`featureCache, this`snapshots
      ensures Valid()
      ensures Model() == Refresh(old(Model()), s, ids)
    {
      hide Refresh, Remember, FullSnapshot;
      ghost var before := Model();
      RefreshNone(before, s);
      ghost var done: set<InstrumentId> := {};
      var remaining := ids;
      while remaining != {}
        invariant done !! remaining && done + remaining == ids
        invariant Model() == Refresh(before, s, done)
        decreases remaining
      {
        Inhabited(remaining);
        var id :| id in remaining;
        if id in quotes {
          RefreshOneMore(before, s, done, id);
          SeriesOfOrdered(Model(), id, OneMinute);
          var snapshot := Calculate(s, quotes[id]);
          snapshots := snapshots[id := snapshot];
        } else {
          RefreshUnquoted(before, s, done, id);
        }
        remaining, done := remaining - {id}, done + {id};
      }
      assert done == ids;
    }

    method IngestQuotes(quotes: seq<Quote>, includeBenchmarks: bool)
      returns (result: seq<Snapshot>, error: Option<Error>)
      requires Valid()
      modifies this
      ensures Valid()
      ensures QuoteResult(Model(), result, error) == FeatureState.IngestQuotes(old(Model()), quotes, includeBenchmarks)
    {
      hide TakeQuote, DropQuote, WellIndexed, AddQuotes;
      if session.None? {
        return [], Some(NoSession);
      }
      var s := session.value;
      ghost var before := Model();
      assert quotes[0..] == quotes;
      result := [];
      for i := 0 to |quotes|
        invariant Valid()
        invariant var rest := AddQuotes(Model(), s, quotes[i..], includeBenchmarks);
                  AddQuotes(before, s, quotes, includeBenchmarks) ==
                  if rest.error.Some? then rest else rest.(snapshots := result + rest.snapshots)
      {
        var q := quotes[i];
        NextQuote(Model(), s, quotes, i, includeBenchmarks);
        if q.id !in instruments || instruments[q.id].symbol != q.symbol {
          return [], Some(UnknownInstrument(q.symbol));
        }
        if q.bid <= 0.0 || q.ask < q.bid || q.last <= 0.0 || q.dayOpen <= 0.0 {
          if instruments[q.id].role.Candidate? {
            return [], Some(InvalidQuote(q.symbol));
          }
          DropBenchmark(q.id);
        } else {
          var snapshot := AcceptQuote(s, q, includeBenchmarks || q.id in candidates);
          result := result + [snapshot];
        }
      }
      NoMoreQuotes(Model(), s, quotes[|quotes|..], includeBenchmarks);
      return result, None;
    }

    method DropBenchmark(id: InstrumentId)
      requires Valid()
      modifies this`unavailable, this`quotes, this`snapshots
      ensures Valid()
      ensures Model() == DropQuote(old(Model()), id)
    {
      unavailable := unavailable + {id};
      quotes := quotes - {id};
      snapshots := snapshots - {id};
    }

    method AcceptQuote(s: Session, q: Quote, full: bool) returns (snapshot: Snapshot)
      requires Valid()
      modifies this`unavailable, this`quotes, this`snapshots, this`featureCache
      ensures Valid()
      ensures Model() == TakeQuote(old(Model()), s, q, full)
      ensures q.id in snapshots && snapshots[q.id] == snapshot
    {
      hide Remember, FullSnapshot, BenchmarkSnapshot, WellIndexed, SeriesOf, HistoryOf, Increasing, HistoryOrdered;
      TakeQuoteWellIndexed(Model(), s, q, full);
      RecordQuote(q);
      SeriesOfOrdered(Model(), q.id, OneMinute);
      if full {
        snapshot := Calculate(s, q);
      } else {
        snapshot := CalculateBenchmark(s, q);
      }
      snapshots := snapshots[q.id := snapshot];
    }

    method RecordQuote(q: Quote)
      requires Valid()
      modifies this`unavailable, this`quotes
      ensures Valid()
      ensures Model() == old(Model()).(unavailable := old(unavailable) - {q.id}, quotes := old(quotes)[q.id := q])
    {
      unavailable := unavailable - {q.id};
      quotes := quotes[q.id := q];
    }

    method CalculateBenchmark(s: Session, q: Quote) returns (snapshot: Snapshot)
      ensures snapshot == BenchmarkSnapshot(Model(), s, q)
    {
      var frames := if q.id in series then series[q.id] else map[];
      var one := if OneMinute in frames then frames[OneMinute] else [];
      var close := ComputeLastCompletedClose(one, q.timestamp - 60 * 5);
      return BenchmarkOnly(s.market, q, close);
    }

    method WarmInstrument(i: Instrument, batch: seq<Candle>) returns (error: Option<Error>)
      requires Valid()
      modifies this
      ensures Valid()
      ensures (Model(), error) == Warm(old(Model()), i, batch)
    {
      hide FeatureState.IngestCandles;
      if session.None? {
        return Some(NoSession);
      }
      if i.id in instruments {
        if instruments[i.id].symbol != i.symbol {
          return Some(IdentityChanged(i.symbol));
        }
      } else {
        instruments := instruments[i.id := i];
      }
      if i.role.Candidate? {
        candidates := candidates + {i.id};
      }
      error := IngestCandles(batch);
    }

    method RetireInstruments(ids: seq<InstrumentId>) returns (retired: set<InstrumentId>, error: Option<Error>)
      requires Valid()
      modifies this
      ensures Valid()
      ensures (Model(), error) == Retire(old(Model()), ids)
      ensures error.None? ==> retired == Retired(old(Model()), ids)
    {
      if session.None? {
        return {}, Some(NoSession);
      }
      retired := set id | id in ids && id in instruments;
      assert retired == Retired(Model(), ids);
      if exists id :: id in retired && instruments[id].role.Benchmark? {
        return {}, Some(BenchmarkRetired);
      }
      ForgetWellIndexed(Model(), retired);
      Remove(retired);
      return retired, None;
    }

    method RemoveIndexes(ids: set<InstrumentId>)
      modifies this`series, this`history, this`candles, this`featureCache, this`contextCache
      ensures series == old(series) - ids && history == old(history) - ids
      ensures featureCache == old(featureCache) - ids && contextCache == old(contextCache) - ids
      ensures candles == WithoutCandles(old(candles), ids)
    {
      hide WithoutCandles;
      series, history := series - ids, history - ids;
      featureCache, contextCache := featureCache - ids, contextCache - ids;
      candles := WithoutCandles(candles, ids);
    }

    method Remove(ids: set<InstrumentId>)
      modifies this
      ensures Model() == Forget(old(Model()), ids)
    {
      hide WithoutCandles;
      instruments, candidates := instruments - ids, candidates - ids;
      quotes, snapshots, unavailable := quotes - ids, snapshots - ids, unavailable - ids;
      RemoveIndexes(ids);
    }

    method BaseContext(s: Session, id: InstrumentId, t: Time) returns (base: ContextBase)
      modifies this`contextCache
      ensures base == Context(old(Model()), s, id, t)
      ensures contextCache == old(contextCache)[id := CachedContext(CacheKeyOf(old(Model()), s, id, t), base)]
    {
      hide RegularSession, CompleteEndedBy, StartingFrom;
      var frames := if id in series then series[id] else map[];
      var one := if OneMinute in frames then frames[OneMinute] else [];
      var five := if FiveMinutes in frames then frames[FiveMinutes] else [];
      var daily := if OneDay in frames then frames[OneDay] else [];
      var key := CacheKey(s.market, id, |one|, |five|, |daily|, MinuteOf(t));
      if id in contextCache && contextCache[id].key == key {
        return contextCache[id].base;
      }
      var rsiBars := RegularSession(s, CompleteEndedBy(five, t));
      var days := CompleteEndedBy(daily, s.start);
      base := ContextBase(StartingFrom(rsiBars, s.start), rsiBars, days,
                          if days == [] then None else Some(days[|days| - 1].high));
      contextCache := contextCache[id := CachedContext(key, base)];
    }

    method StrategyContext(id: InstrumentId, t: Time) returns (outcome: Outcome)
      requires Valid()
      modifies this`contextCache
      ensures Valid()
      ensures Stepped(Model(), outcome) == FeatureState.StrategyContext(old(Model()), id, t)
    {
      hide Context, CacheKeyOf;
      if session.None? {
        return Raised(NoSession);
      }
      if id !in instruments {
        return Raised(NotInSession);
      }
      var base := BaseContext(session.value, id, t);
      return Base(base);
    }
  }
}
