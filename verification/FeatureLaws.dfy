/** What the feature engine accepts and what its published figures mean, said of inputs and outputs alone
    (services/scanner/app/feature_engine.py:104-131, 390-549, 735-739, 898-921). */
module FeatureLaws {
  import opened Lists
  import opened Clock
  import opened Candles
  import opened Indicators
  import opened IndicatorLaws
  import opened FeatureState
  import opened FeatureEngines
  import opened FeatureIndex
  import opened FeatureLimits
  import opened FeatureSnapshots

  // ------------------------------------------------------------------ the regular session

  /** A bar belongs to the regular session exactly when its local clock lies within the session's. */
  lemma RegularByLocalClock(
      s: Session, c: Candle, opens: int, closes: int, starts: int, ends: int,
      offsets: seq<int>, days: seq<int>)
    requires |offsets| == |days| == 4
    requires Shows(s.zone, s.start, offsets[0], days[0], opens) && Shows(s.zone, s.end, offsets[1], days[1], closes)
    requires Shows(s.zone, c.start, offsets[2], days[2], starts) && Shows(s.zone, c.end, offsets[3], days[3], ends)
    ensures InRegularSession(s, c) <==> opens <= starts && ends <= closes
  {
    hide Shows, LocalMinuteOfDay;
    ClockShows(s.zone, s.start, offsets[0], days[0], opens);
    ClockShows(s.zone, s.end, offsets[1], days[1], closes);
    ClockShows(s.zone, c.start, offsets[2], days[2], starts);
    ClockShows(s.zone, c.end, offsets[3], days[3], ends);
  }

  // ------------------------------------------------------------------ the figures of a calculation

  /** The bars a calculation works on: the complete candles of the session so far, the complete regular five-minute
      bars, those of the session, and the complete days before it. */
  ghost predicate SelectsBars(
      s: Session, one: seq<Candle>, five: seq<Candle>, daily: seq<Candle>, t: Time, d: Derived)
  {
    && (forall c :: c in d.oneMinute <==> c in one && c.complete && s.start <= c.start && c.end <= t)
    && (forall c :: c in d.rsiBars <==> c in five && c.complete && c.end <= t && InRegularSession(s, c))
    && (forall c :: c in d.fiveMinute <==> c in d.rsiBars && s.start <= c.start)
    && (forall c :: c in d.daily <==> c in daily && c.complete && c.end <= s.start)
    && Increasing(d.oneMinute)
    && (Increasing(five) ==> Increasing(d.rsiBars) && Increasing(d.fiveMinute))
    && (Increasing(daily) ==> Increasing(d.daily))
  }

  /** What is computed from them. */
  ghost predicate FiguresHold(s: Session, h: History, t: Time, d: Derived) {
    && IsVwap(d.oneMinute, d.vwap)
    && IsAtr14(d.daily, d.atr14)
    && IsRelativeVolume(d.oneMinute, s.start, t, h, d.volume)
    && IsOpeningRange(d.oneMinute, s.openingStart, s.openingEnd, t, d.atr14, d.openingRange)
    && (forall l :: l in d.highs <==> exists i :: 2 <= i < |d.fiveMinute| - 2 && IsLevel(d.fiveMinute, i, SwingHigh, l))
    && (forall l :: l in d.lows <==> exists i :: 2 <= i < |d.fiveMinute| - 2 && IsLevel(d.fiveMinute, i, SwingLow, l))
    && IsBaseline(d.oneMinute, t - 300, d.baseline5m)
  }

  lemma {:induction false} FilterIncreases(cs: seq<Candle>, p: Candle -> bool)
    requires Increasing(cs)
    ensures Increasing(Filter(cs, p))
  {
    if cs != [] {
      FilterIncreases(cs[1..], p);
      var rest := Filter(cs[1..], p);
      forall j | 0 <= j < |rest| ensures cs[0].start < rest[j].start {
        assert rest[j] in cs[1..];
      }
    }
  }

  lemma SelectionsDerived(s: Session, one: seq<Candle>, five: seq<Candle>, daily: seq<Candle>, h: History, t: Time)
    ensures var d := Derive(s, one, five, daily, h, t);
            && d.fiveMinute == StartingFrom(d.rsiBars, s.start)
            && d.daily == CompleteEndedBy(daily, s.start)
  {
    hide RvolAtTime, ComputeOpeningRange, RollingBaseline, Vwap, Swings, AtrOfBars, CompletedCandles, BisectEndIn,
         RegularSession, InsertionPoint, Slice, Complete, CompleteEndedBy, StartingFrom;
  }

  lemma RegularSelected(s: Session, five: seq<Candle>, t: Time)
    ensures var bars := RegularSession(s, CompleteEndedBy(five, t));
            && (forall c :: c in bars <==> c in five && c.complete && c.end <= t && InRegularSession(s, c))
            && (forall c :: c in StartingFrom(bars, s.start) <==> c in bars && s.start <= c.start)
            && (Increasing(five) ==> Increasing(bars) && Increasing(StartingFrom(bars, s.start)))
  {
    hide InRegularSession, Increasing;
    var bars := RegularSession(s, CompleteEndedBy(five, t));
    if Increasing(five) {
      FilterIncreases(five, (c: Candle) => c.complete && c.end <= t);
      FilterIncreases(CompleteEndedBy(five, t), (c: Candle) => InRegularSession(s, c));
      FilterIncreases(bars, (c: Candle) => s.start <= c.start);
    }
  }

  lemma DaysSelected(daily: seq<Candle>, start: Time)
    ensures forall c :: c in CompleteEndedBy(daily, start) <==> c in daily && c.complete && c.end <= start
    ensures Increasing(daily) ==> Increasing(CompleteEndedBy(daily, start))
  {
    hide Increasing;
    if Increasing(daily) {
      FilterIncreases(daily, (c: Candle) => c.complete && c.end <= start);
    }
  }

  lemma SelectionsHold(s: Session, one: seq<Candle>, five: seq<Candle>, daily: seq<Candle>, h: History, t: Time)
    requires Increasing(one) && EndsIncreasing(one) && EndsIncreasing(five)
    ensures SelectsBars(s, one, five, daily, t, Derive(s, one, five, daily, h, t))
  {
    hide Derive, Increasing, EndsIncreasing, InRegularSession, RegularSession, StartingFrom, CompleteEndedBy;
    DeriveScansAll(s, one, five, daily, h, t);
    SelectionsDerived(s, one, five, daily, h, t);
    RegularSelected(s, five, t);
    DaysSelected(daily, s.start);
    FilterIncreases(one, (c: Candle) => c.complete && s.start <= c.start && c.end <= t);
  }

  lemma FiguresFollow(s: Session, one: seq<Candle>, five: seq<Candle>, daily: seq<Candle>, h: History, t: Time)
    ensures FiguresHold(s, h, t, Derive(s, one, five, daily, h, t))
  {
    var d := Derive(s, one, five, daily, h, t);
    hide RvolAtTime, ComputeOpeningRange, RollingBaseline, Vwap, Swings, AtrOfBars, CompletedCandles, BisectEndIn,
         InRegularSession, InsertionPoint, Slice, Complete, IsVwap, IsAtr14, IsRelativeVolume, IsOpeningRange,
         IsBaseline, IsLevel, StartingFrom, CompleteEndedBy, RegularSession, Bars;
    VwapWeighs(d.oneMinute);
    AtrAverages(d.daily);
    RelativeVolumeCompares(d.oneMinute, s.start, t, h);
    OpeningRangeSpans(d.oneMinute, s.openingStart, s.openingEnd, t, d.atr14);
    BaselineIsLatest(d.oneMinute, t, 5);
    forall l { SwingsAreExtremes(d.fiveMinute, SwingHigh, l); }
    forall l { SwingsAreExtremes(d.fiveMinute, SwingLow, l); }
  }

  /** After every run on whole minutes, half starts included: the figures of a full snapshot that was not left behind
      are those of the series and the history on its quote. */
  lemma PublishedFiguresHold(ops: seq<Op>, k: nat, id: InstrumentId)
    requires AlignedSince(ops, k) && id !in DoubtsOver(ops).behind
    requires var e := Execute(EMPTY, ops).engine;
             && e.session.Some? && id in e.quotes && id in e.snapshots && e.snapshots[id].Full?
             && EndsIncreasing(SeriesOf(e, id, OneMinute)) && EndsIncreasing(SeriesOf(e, id, FiveMinutes))
    ensures var e := Execute(EMPTY, ops).engine;
            var s, snapshot := e.session.value, e.snapshots[id];
            && snapshot.market == s.market && snapshot.quote == e.quotes[id]
            && SelectsBars(s, SeriesOf(e, id, OneMinute), SeriesOf(e, id, FiveMinutes), SeriesOf(e, id, OneDay),
                           snapshot.quote.timestamp, snapshot.derived)
            && FiguresHold(s, HistoryOf(e, id), snapshot.quote.timestamp, snapshot.derived)
  {
    hide Execute, DoubtsOver, AlignedSince, SelectsBars, FiguresHold, Derive, SeriesIndexed, EndsIncreasing;
    SnapshotsCurrentAfterRun(ops, k, id);
    RunIndexed(ops);
    var e := Execute(EMPTY, ops).engine;
    var s, t := e.session.value, e.quotes[id].timestamp;
    IndexedIncreases(e, id);
    SelectionsHold(s, SeriesOf(e, id, OneMinute), SeriesOf(e, id, FiveMinutes), SeriesOf(e, id, OneDay),
                   HistoryOf(e, id), t);
    FiguresFollow(s, SeriesOf(e, id, OneMinute), SeriesOf(e, id, FiveMinutes), SeriesOf(e, id, OneDay),
                  HistoryOf(e, id), t);
  }

  /** The context's bars, and the high of the last complete day before the session. */
  lemma ContextHolds(s: Session, five: seq<Candle>, daily: seq<Candle>, t: Time)
    ensures var b := DeriveContext(s, five, daily, t);
            && (forall c :: c in b.rsiBars <==> c in five && c.complete && c.end <= t && InRegularSession(s, c))
            && (forall c :: c in b.bars <==> c in b.rsiBars && s.start <= c.start)
            && (forall c :: c in b.daily <==> c in daily && c.complete && c.end <= s.start)
            && (b.priorDayHigh.Some? <==> exists c :: c in daily && c.complete && c.end <= s.start)
            && (EndsIncreasing(daily) && b.priorDayHigh.Some? ==>
                  exists c :: c in daily && c.complete && c.end <= s.start && b.priorDayHigh.value == c.high &&
                              forall d :: d in daily && d.complete && d.end <= s.start ==> d.end <= c.end)
  {
    hide InRegularSession;
    var days := CompleteEndedBy(daily, s.start);
    if days == [] {
      assert forall c :: c in daily && c.complete && c.end <= s.start ==> c in days;
    } else {
      var last := days[|days| - 1];
      assert last in days;
      if EndsIncreasing(daily) {
        FilterEndsIncrease(daily, (c: Candle) => c.complete && c.end <= s.start);
        forall d | d in daily && d.complete && d.end <= s.start ensures d.end <= last.end {
          assert d in days;
          var i :| 0 <= i < |days| && days[i] == d;
        }
      }
    }
  }

  lemma {:induction false} FilterEndsIncrease(cs: seq<Candle>, p: Candle -> bool)
    requires EndsIncreasing(cs)
    ensures EndsIncreasing(Filter(cs, p))
  {
    if cs != [] {
      FilterEndsIncrease(cs[1..], p);
      var rest := Filter(cs[1..], p);
      forall j | 0 <= j < |rest| ensures cs[0].end < rest[j].end {
        assert rest[j] in cs[1..];
      }
    }
  }

  /** The close of the benchmark-only snapshot: that of the latest complete candle with a positive close ended
      five minutes before the quote. */
  lemma BenchmarkCloseIsLatest(e: Engine, s: Session, q: Quote)
    requires EndsIncreasing(SeriesOf(e, q.id, OneMinute))
    ensures var b := BenchmarkSnapshot(e, s, q);
            && b.BenchmarkOnly? && b.market == s.market && b.quote == q
            && IsBaseline(Complete(SeriesOf(e, q.id, OneMinute)), q.timestamp - 300, b.close5m)
  {
    hide LastCompletedClose, RollingBaseline, SeriesOf;
    var one, boundary := SeriesOf(e, q.id, OneMinute), q.timestamp - 300;
    LastCompletedCloseIsBaseline(one, boundary);
    BaselineIsLatest(CompleteEndedBy(one, boundary), boundary, 0);
    assert forall c :: c in CompleteEndedBy(one, boundary) <==> c in Complete(one) && c.end <= boundary;
    SameEligible(CompleteEndedBy(one, boundary), Complete(one), boundary, BenchmarkSnapshot(e, s, q).close5m);
  }

  lemma SameEligible(a: seq<Candle>, b: seq<Candle>, boundary: Time, close: Option<real>)
    requires forall c :: c in a <==> c in b && c.end <= boundary
    requires IsBaseline(a, boundary, close)
    ensures IsBaseline(b, boundary, close)
  {
    if close.Some? {
      var c :| c in a && Eligible(c, boundary) && close.value == c.close &&
               forall d :: d in a && Eligible(d, boundary) ==> d.end <= c.end;
      assert c in b;
    }
  }

  // ------------------------------------------------------------------ what is accepted

  /** A candle of a configured instrument, with a time range and possible values. */
  predicate Fits(instruments: map<InstrumentId, Instrument>, c: Candle) {
    c.id in instruments && instruments[c.id].symbol == c.symbol &&
    c.start < c.end && 0 <= c.volume && c.low <= c.high
  }

  predicate Sane(q: Quote) { 0.0 < q.bid && q.bid <= q.ask && 0.0 < q.last && 0.0 < q.dayOpen }

  lemma {:induction false} NoneRefused(instruments: map<InstrumentId, Instrument>, batch: seq<Candle>)
    ensures !Refused(instruments, batch) <==> forall c :: c in batch ==> Fits(instruments, c)
  {
    if batch != [] {
      NoneRefused(instruments, batch[1..]);
      assert batch[0] in batch;
      assert forall c :: c in batch ==> c == batch[0] || c in batch[1..];
    }
  }

  /** A batch goes through exactly if there is a session and each of its candles fits. */
  lemma BatchGoesThrough(e: Engine, batch: seq<Candle>)
    ensures IngestCandles(e, batch).1.None? <==>
            e.session.Some? && forall c :: c in batch ==> Fits(e.instruments, c)
  {
    hide Fits, Refresh, AddCandles, Refused;
    if e.session.Some? {
      NoneRefused(e.instruments, batch);
      RefusedRaises(e, e.session.value, batch);
    }
  }

  predicate QuoteFits(instruments: map<InstrumentId, Instrument>, q: Quote) {
    q.id in instruments && instruments[q.id].symbol == q.symbol && (Sane(q) || instruments[q.id].role.Benchmark?)
  }

  lemma {:induction false} AllQuotesFit(e: Engine, s: Session, quotes: seq<Quote>, benchmarks: bool)
    ensures AddQuotes(e, s, quotes, benchmarks).error.None? <==> forall q :: q in quotes ==> QuoteFits(e.instruments, q)
    decreases |quotes|
  {
    hide TakeQuote, DropQuote;
    if quotes != [] {
      var q := quotes[0];
      assert q in quotes && forall x :: x in quotes ==> x == q || x in quotes[1..];
      if Known(e.instruments, q.id, q.symbol) {
        var full := benchmarks || q.id in e.candidates;
        QuoteKeepsCandles(e, s, q, full);
        if InvalidQuoteValues(q) {
          AllQuotesFit(DropQuote(e, q.id), s, quotes[1..], benchmarks);
        } else {
          AllQuotesFit(TakeQuote(e, s, q, full), s, quotes[1..], benchmarks);
        }
      }
    }
  }

  /** Quotes go through exactly if there is a session and each is of a configured instrument and sane, or of a
      benchmark. */
  lemma QuotesGoThrough(e: Engine, quotes: seq<Quote>, benchmarks: bool)
    ensures IngestQuotes(e, quotes, benchmarks).error.None? <==>
            e.session.Some? && forall q :: q in quotes ==> QuoteFits(e.instruments, q)
  {
    hide AddQuotes, QuoteFits;
    if e.session.Some? { AllQuotesFit(e, e.session.value, quotes, benchmarks); }
  }

  ghost predicate AllSane(e: Engine) { forall id :: id in e.quotes ==> Sane(e.quotes[id]) }

  ghost predicate AllPossible(e: Engine) {
    forall k :: k in e.candles ==>
      var c := e.candles[k]; c.start < c.end && 0 <= c.volume && c.low <= c.high
  }

  lemma {:induction false} AddCandlesPossible(e: Engine, s: Session, batch: seq<Candle>)
    requires AllPossible(e)
    ensures AllPossible(AddCandles(e, s, batch).0)
    decreases |batch|
  {
    hide AddCandle;
    if batch != [] && CandleError(e.instruments, batch[0]).None? {
      AddCandleCandles(e, s, batch[0]);
      AddCandlesPossible(AddCandle(e, s, batch[0]), s, batch[1..]);
    }
  }

  lemma TakeIsSane(e: Engine, s: Session, q: Quote, full: bool)
    requires AllSane(e)
    ensures Sane(q) ==> AllSane(TakeQuote(e, s, q, full))
    ensures AllSane(DropQuote(e, q.id))
  {
    hide Remember, FullSnapshot, BenchmarkSnapshot, Sane;
    assert forall id :: id in TakeQuote(e, s, q, full).quotes ==>
      id == q.id || (id in e.quotes && TakeQuote(e, s, q, full).quotes[id] == e.quotes[id]);
  }

  lemma {:induction false} AddQuotesSane(e: Engine, s: Session, quotes: seq<Quote>, benchmarks: bool)
    requires AllSane(e)
    ensures AllSane(AddQuotes(e, s, quotes, benchmarks).engine)
    decreases |quotes|
  {
    hide TakeQuote, DropQuote, AllSane;
    if quotes != [] && Known(e.instruments, quotes[0].id, quotes[0].symbol) {
      var q := quotes[0];
      TakeIsSane(e, s, q, benchmarks || q.id in e.candidates);
      if !InvalidQuoteValues(q) {
        AddQuotesSane(TakeQuote(e, s, q, benchmarks || q.id in e.candidates), s, quotes[1..], benchmarks);
      } else if e.instruments[q.id].role.Benchmark? {
        AddQuotesSane(DropQuote(e, q.id), s, quotes[1..], benchmarks);
      }
    }
  }

  lemma BatchKeepsSane(e: Engine, batch: seq<Candle>)
    requires AllSane(e) && AllPossible(e)
    ensures AllSane(IngestCandles(e, batch).0) && AllPossible(IngestCandles(e, batch).0)
  {
    hide Sane, AddCandles, RefreshedFeatures, RefreshedSnapshots;
    if e.session.Some? {
      AddCandlesKeepCandidates(e, e.session.value, batch);
      AddCandlesPossible(e, e.session.value, batch);
    }
  }

  lemma QuotesKeepSane(e: Engine, quotes: seq<Quote>, benchmarks: bool)
    requires AllSane(e) && AllPossible(e)
    ensures var f := IngestQuotes(e, quotes, benchmarks).engine; AllSane(f) && AllPossible(f)
  {
    hide AddQuotes, AllSane;
    if e.session.Some? {
      AddQuotesSane(e, e.session.value, quotes, benchmarks);
      AddQuotesKeepCandles(e, e.session.value, quotes, benchmarks);
    }
  }

  /** Nothing but quotes and candles matters to that, and fewer of them do no harm. */
  lemma FewerAreSane(e: Engine, f: Engine)
    requires AllSane(e) && AllPossible(e)
    requires forall id :: id in f.quotes ==> id in e.quotes && f.quotes[id] == e.quotes[id]
    requires forall k :: k in f.candles ==> k in e.candles && f.candles[k] == e.candles[k]
    ensures AllSane(f) && AllPossible(f)
  {
    hide Sane;
  }

  lemma StartKeepsSane(e: Engine, s: Session)
    requires AllSane(e) && AllPossible(e)
    ensures AllSane(StartSession(e, s).0) && AllPossible(StartSession(e, s).0)
  {
    hide AllSane, AllPossible, InstrumentMap, CandidateIds, MarketBenchmarks;
    FewerAreSane(e, StartSession(e, s).0);
  }

  lemma ForgetKeepsSane(e: Engine, gone: set<InstrumentId>)
    requires AllSane(e) && AllPossible(e)
    ensures AllSane(Forget(e, gone)) && AllPossible(Forget(e, gone))
  {
    hide AllSane, AllPossible;
    FewerAreSane(e, Forget(e, gone));
  }

  lemma RetireKeepsSane(e: Engine, ids: seq<InstrumentId>)
    requires AllSane(e) && AllPossible(e)
    ensures AllSane(Retire(e, ids).0) && AllPossible(Retire(e, ids).0)
  {
    hide AllSane, AllPossible, Retired, Forget;
    ForgetKeepsSane(e, Retired(e, ids));
  }

  lemma ContextKeepsSane(e: Engine, id: InstrumentId, t: Time)
    requires AllSane(e) && AllPossible(e)
    ensures AllSane(StrategyContext(e, id, t).engine) && AllPossible(StrategyContext(e, id, t).engine)
  {
    hide AllSane, AllPossible, Context, CacheKeyOf;
    FewerAreSane(e, StrategyContext(e, id, t).engine);
  }

  lemma StepKeepsSane(e: Engine, op: Op)
    requires AllSane(e) && AllPossible(e)
    ensures AllSane(Step(e, op).engine) && AllPossible(Step(e, op).engine)
  {
    hide AllSane, AllPossible, IngestCandles, IngestQuotes, StartSession, Retire, StrategyContext;
    match op
    case OpCandles(batch) => BatchKeepsSane(e, batch);
    case OpWarm(i, batch) =>
      FewerAreSane(e, Admit(e, i));
      BatchKeepsSane(Admit(e, i), batch);
    case OpQuotes(quotes, benchmarks) => QuotesKeepSane(e, quotes, benchmarks);
    case OpStart(s) => StartKeepsSane(e, s);
    case OpRetire(ids) => RetireKeepsSane(e, ids);
    case OpContext(id, at) => ContextKeepsSane(e, id, at);
  }

  /** After any run no quote the engine holds has a missing price or a crossed market, and no candle is without a
      time range, of negative volume or upside down. */
  lemma {:induction false} OnlySaneInputsAreHeld(ops: seq<Op>)
    ensures AllSane(Execute(EMPTY, ops).engine) && AllPossible(Execute(EMPTY, ops).engine)
  {
    hide AllSane, AllPossible, Step;
    if ops == [] {
      NothingHeld();
    } else {
      OnlySaneInputsAreHeld(ops[..|ops| - 1]);
      StepKeepsSane(Execute(EMPTY, ops[..|ops| - 1]).engine, ops[|ops| - 1]);
    }
  }

  lemma NothingHeld()
    ensures AllSane(EMPTY) && AllPossible(EMPTY)
  {
  }

  // ------------------------------------------------------------------ sessions and history

  predicate MarketBenchmark(i: Instrument) { i.role == Benchmark && i.kind == Market }

  lemma {:induction false} BenchmarksCounted(instruments: seq<Instrument>)
    ensures MarketBenchmarks(instruments) > 0 <==> exists i :: 0 <= i < |instruments| && MarketBenchmark(instruments[i])
    ensures MarketBenchmarks(instruments) > 1 <==>
            exists i, j :: 0 <= i < j < |instruments| &&
                           MarketBenchmark(instruments[i]) && MarketBenchmark(instruments[j])
  {
    if instruments != [] {
      var rest := instruments[1..];
      BenchmarksCounted(rest);
      if i :| 0 <= i < |rest| && MarketBenchmark(rest[i]) {
        assert instruments[i + 1] == rest[i];
        if j :| i < j < |rest| && MarketBenchmark(rest[j]) { assert instruments[j + 1] == rest[j]; }
      }
      if i, j :| 0 <= i < j < |rest| && MarketBenchmark(rest[i]) && MarketBenchmark(rest[j]) {
        assert MarketBenchmark(instruments[i + 1]) && MarketBenchmark(instruments[j + 1]);
      }
      forall i | 1 <= i < |instruments| ensures instruments[i] == rest[i - 1] {
      }
    }
  }

  /** A start is refused for an end that is not after the start, or for two market benchmarks. */
  lemma StartRefusedExactly(e: Engine, s: Session)
    ensures StartSession(e, s).1.Some? <==>
            || s.end <= s.start
            || exists i, j :: 0 <= i < j < |s.instruments| &&
                              MarketBenchmark(s.instruments[i]) && MarketBenchmark(s.instruments[j])
  {
    hide MarketBenchmarks, Entered, MarketBenchmark;
    BenchmarksCounted(s.instruments);
  }

  /** The last listed of an id is the session's instrument. */
  lemma {:induction false} LastListedCounts(instruments: seq<Instrument>, id: InstrumentId)
    ensures id in InstrumentMap(instruments) <==> exists i :: 0 <= i < |instruments| && instruments[i].id == id
    ensures id in InstrumentMap(instruments) ==>
            exists i :: 0 <= i < |instruments| && instruments[i].id == id &&
                        InstrumentMap(instruments)[id] == instruments[i] &&
                        forall j :: i < j < |instruments| ==> instruments[j].id != id
  {
    if instruments != [] {
      var n := |instruments| - 1;
      LastListedCounts(instruments[..n], id);
      if instruments[n].id != id && id in InstrumentMap(instruments[..n]) {
        var i :| 0 <= i < n && instruments[..n][i].id == id &&
                 InstrumentMap(instruments[..n])[id] == instruments[..n][i] &&
                 forall j :: i < j < n ==> instruments[..n][j].id != id;
        assert instruments[i].id == id && forall j :: i < j < n ==> instruments[j] == instruments[..n][j];
      }
    }
  }

  /** A complete one-minute candle from before the session is entered at its UTC day; no other candle enters
      the history. */
  lemma HistoryTakesPastMinutes(e: Engine, s: Session, c: Candle)
    requires WellIndexed(e)
    ensures var before, after := HistoryOf(e, c.id), HistoryOf(AddCandle(e, s, c), c.id);
            if c.timeframe == OneMinute && c.complete && c.start < s.start
            then exists date :: date * 86400 <= c.start < date * 86400 + 86400 && date in after && c in after[date]
            else after == before
  {
    hide Put, AddCandle;
    AddCandleHistory(e, s, c, c.id);
    if c.timeframe == OneMinute && c.complete && c.start < s.start {
      var date := UtcDate(c.start);
      var h := HistoryOf(e, c.id);
      UtcDateHolds(c.start);
      SeriesOfOrdered(e, c.id, OneMinute);
      PutMembers(if date in h then h[date] else [], c, c);
      assert date in PutHistory(h, c) && c in PutHistory(h, c)[date];
    }
  }
}
