/** Where the guarantees of the feature engine end: a session that starts halfway, times that are not
    whole minutes, a batch that raises midway. */
module FeatureLimits {
  import opened Lists
  import opened Clock
  import opened Candles
  import opened Indicators
  import opened FeatureState
  import opened FeatureEngines
  import opened FeatureIndex
  import opened FeatureMinutes
  import opened FeatureReference
  import opened FeatureRefinement
  import opened FeatureCaches
  import opened FeatureRuns
  import opened FeatureSnapshots

  /** No cache hit differs from a fresh computation. */
  ghost predicate FreshHits(e: Engine) {
    e.session.Some? ==>
      forall id, t ::
        && Features(e, e.session.value, id, t) == FreshFeatures(e, e.session.value, id, t)
        && Context(e, e.session.value, id, t) == FreshContext(e, e.session.value, id, t)
  }

  // ------------------------------------------------------------------ one candle, one quote

  function SessionFrom(s: Session, start: Time, i: Instrument): Session {
    Session(s.market, s.zone, start, start + 3600, start, start, [i])
  }

  function MinuteCandle(i: Instrument, start: Time, end: Time): Candle {
    Candle(i.id, i.symbol, OneMinute, start, end, 1.0, 1.0, 1.0, 1.0, 0, true)
  }

  function UnitQuote(i: Instrument, t: Time): Quote { Quote(i.id, i.symbol, t, 1.0, 1.0, 1.0, 1.0) }

  /** Start a session, ingest one candle, then quote. */
  function OneCandleOps(s: Session, c: Candle, i: Instrument, t: Time): seq<Op> {
    [OpStart(s), OpCandles([c]), OpQuotes([UnitQuote(i, t)], true)]
  }

  function Started(s: Session, i: Instrument): Engine {
    EMPTY.(session := Some(s), instruments := map[i.id := i], candidates := CandidateIds([i]))
  }

  lemma StartedBy(s: Session, start: Time, i: Instrument)
    ensures StartSession(EMPTY, SessionFrom(s, start, i)) == (Started(SessionFrom(s, start, i), i), None)
  {
    assert [i][..0] == [] && [i][1..] == [];
    assert InstrumentMap([i]) == map[i.id := i];
    assert MarketBenchmarks([i]) <= 1;
  }

  lemma CandleIngested(s: Session, c: Candle, i: Instrument)
    requires c.id == i.id && c.symbol == i.symbol && c.start < c.end && c.volume >= 0 && c.low <= c.high
    ensures IngestCandles(Started(s, i), [c]) == (AddCandle(Started(s, i), s, c), None)
  {
    hide AddCandle, RefreshedFeatures, RefreshedSnapshots;
    var e := Started(s, i);
    var added := AddCandle(e, s, c);
    assert [c][1..] == [];
    assert AddCandles(e, s, [c]) == (added, None);
    assert added.quotes == map[] by { AddCandlesKeepInputs(e, s, [c]); }
    RefreshesNothing(added, s, BatchIds([c]));
  }

  lemma RefreshesNothing(e: Engine, s: Session, ids: set<InstrumentId>)
    requires e.quotes == map[]
    ensures Refresh(e, s, ids) == e
  {
    hide Remember, FullSnapshot;
    assert RefreshedFeatures(e, s, ids) == map[];
    assert RefreshedSnapshots(e, s, ids) == map[];
  }

  /** One valid quote of a known instrument. */
  lemma OneQuote(e: Engine, s: Session, i: Instrument, t: Time, benchmarks: bool)
    requires e.session == Some(s) && Known(e.instruments, i.id, i.symbol)
    ensures var next := TakeQuote(e, s, UnitQuote(i, t), benchmarks || i.id in e.candidates);
            IngestQuotes(e, [UnitQuote(i, t)], benchmarks) == QuoteResult(next, [next.snapshots[i.id]], None)
  {
    hide TakeQuote;
    assert [UnitQuote(i, t)][1..] == [];
    assert !InvalidQuoteValues(UnitQuote(i, t));
    var next := TakeQuote(e, s, UnitQuote(i, t), benchmarks || i.id in e.candidates);
    assert AddQuotes(next, s, [], benchmarks) == QuoteResult(next, [], None);
  }

  /** The engine after the three operations. */
  lemma OneCandleRun(z: Session, start: Time, c: Candle, i: Instrument, t: Time)
    requires c.id == i.id && c.symbol == i.symbol && c.start < c.end && c.volume >= 0 && c.low <= c.high
    ensures var s := SessionFrom(z, start, i);
            Execute(EMPTY, OneCandleOps(s, c, i, t)).engine ==
            TakeQuote(AddCandle(Started(s, i), s, c), s, UnitQuote(i, t), true)
  {
    hide StartSession, IngestCandles, IngestQuotes, AddCandle, TakeQuote;
    var s := SessionFrom(z, start, i);
    var ops := OneCandleOps(s, c, i, t);
    StartedBy(z, start, i);
    CandleIngested(s, c, i);
    AddCandleKeepsInputs(Started(s, i), s, c);
    OneQuote(AddCandle(Started(s, i), s, c), s, i, t, true);
    assert ops[..2][..1] == ops[..1] && ops[..1][..0] == [];
    assert Execute(EMPTY, ops[..1]).engine == Started(s, i);
    assert Execute(EMPTY, ops[..2]).engine == AddCandle(Started(s, i), s, c);
  }

  /** The cached entry of that engine: made at `t` from the one candle. */
  lemma OneCandleCache(s: Session, c: Candle, i: Instrument, t: Time)
    requires c.id == i.id && c.timeframe.OneMinute?
    ensures var e := TakeQuote(AddCandle(Started(s, i), s, c), s, UnitQuote(i, t), true);
            && e.session == Some(s)
            && OneCandleSeries(e, i.id, c)
            && i.id in e.featureCache
            && e.featureCache[i.id].key == CacheKey(s.market, i.id, 1, 0, 0, MinuteOf(t))
            && e.featureCache[i.id].derived.oneMinute ==
               Complete(Slice([c], InsertionPoint([c], s.start), BisectEnd([c], t)))
  {
    hide FullSnapshot, PutHistory, RvolAtTime, ComputeOpeningRange, RollingBaseline, RegularSession, Vwap, Swings,
         StartingFrom, CompleteEndedBy, AtrOfBars, Complete, BisectEndIn, CompletedCandles;
    var e := AddCandle(Started(s, i), s, c);
    assert Put([], c) == [c];
    assert SeriesOf(e, i.id, OneMinute) == [c];
    assert Features(e, s, i.id, t) == FreshFeatures(e, s, i.id, t);
  }

  /** The instrument has this one-minute candle and no other candle. */
  predicate OneCandleSeries(e: Engine, id: InstrumentId, c: Candle) {
    SeriesOf(e, id, OneMinute) == [c] && SeriesOf(e, id, FiveMinutes) == [] && SeriesOf(e, id, OneDay) == []
  }

  lemma OneCandleSlices(c: Candle, t: Time)
    requires c.complete
    ensures BisectEnd([c], t) == if c.end <= t then 1 else 0
    ensures Complete([c]) == [c] && Complete([]) == []
  {
    assert [c][1..] == [];
  }

  // ------------------------------------------------------------------ a session that starts halfway

  /** The session starts halfway after a hit that was in order, and a quote in it is answered from the old session. */
  ghost predicate StaleAnswer(ops: seq<Op>, s: Session, q: Quote) {
    var after := ops + [OpStart(s), OpQuotes([q], true)];
    && !FreshHits(Step(Execute(EMPTY, ops).engine, OpStart(s)).engine)
    && |Execute(EMPTY, after).outcomes| == |Consult(BLANK, after).outcomes| == |after|
    && Execute(EMPTY, after).outcomes[|ops| + 1] != Consult(BLANK, after).outcomes[|ops| + 1]
  }

  /** Before such a session an engine in perfect order may hold a cache entry of the old session. */
  lemma StaleAfterHalfStart(s: Session)
    requires AlignedSession(s) && HalfStarts(s)
    ensures exists ops, q :: GoodRun(ops) && StaleAnswer(ops, s, q)
  {
    hide GoodRun, FreshHits, Step, Execute, Consult, HalfStarts, StartSession, TakeQuote, AddCandle, SeriesOf,
         BisectEnd, Complete, OneCandleSeries, StaleAnswer;
    LastIsKnown(s);
    var i := s.instruments[|s.instruments| - 1];
    var start, t := s.start + 60, s.start + 60;
    var before, c := SessionFrom(s, start, i), MinuteCandle(i, s.start, t);
    var ops := OneCandleOps(before, c, i, t);
    AlignedOneCandleRun(s, i);
    OneCandleRun(s, start, c, i, t);
    OneCandleCache(before, c, i, t);
    OneCandleSlices(c, t);
    assert InsertionPoint([c], before.start) == 1;
    assert Slice([c], 1, 1) == [];
    StaleAnswered(ops, s, i, c);
    assert GoodRun(ops) && StaleAnswer(ops, s, UnitQuote(i, t));
  }

  lemma LastIsKnown(s: Session)
    requires HalfStarts(s)
    ensures s.instruments != []
    ensures var i := s.instruments[|s.instruments| - 1]; Known(InstrumentMap(s.instruments), i.id, i.symbol)
  {
  }

  lemma AlignedOneCandleRun(s: Session, i: Instrument)
    requires AlignedSession(s)
    ensures var t := s.start + 60;
            GoodRun(OneCandleOps(SessionFrom(s, t, i), MinuteCandle(i, s.start, t), i, t))
  {
    var before, c := SessionFrom(s, s.start + 60, i), MinuteCandle(i, s.start, s.start + 60);
    assert [i][1..] == [];
    assert MarketBenchmarks([i]) <= 1;
    assert AlignedSession(before) && AlignedCandle(c);
    assert GoodSince(OneCandleOps(before, c, i, s.start + 60), 0);
  }

  /** The engine keeps its series and caches, and gets the new session. */
  lemma HalfStarted(e: Engine, s: Session)
    requires HalfStarts(s)
    ensures var f := Step(e, OpStart(s)).engine;
            && f.session == Some(s) && f.instruments == InstrumentMap(s.instruments)
            && f.series == e.series && f.history == e.history && f.featureCache == e.featureCache
  {
    hide InstrumentMap, CandidateIds, MarketBenchmarks;
  }

  lemma StaleEntry(f: Engine, s: Session, i: Instrument, c: Candle)
    requires c == MinuteCandle(i, s.start, s.start + 60) && OneCandleSeries(f, i.id, c)
    requires i.id in f.featureCache && f.featureCache[i.id].derived.oneMinute == []
    requires f.featureCache[i.id].key == CacheKey(s.market, i.id, 1, 0, 0, MinuteOf(s.start + 60))
    ensures Features(f, s, i.id, s.start + 60).oneMinute == []
    ensures FreshFeatures(f, s, i.id, s.start + 60).oneMinute == [c]
  {
    hide FreshFeatures;
    OneCandleSlices(c, s.start + 60);
    FreshOneMinute(f, s, i.id, s.start + 60);
    assert InsertionPoint([c], s.start) == 0;
  }

  lemma FreshOneMinute(e: Engine, s: Session, id: InstrumentId, t: Time)
    ensures var one := SeriesOf(e, id, OneMinute);
            FreshFeatures(e, s, id, t).oneMinute ==
            Complete(Slice(one, InsertionPoint(one, s.start), BisectEnd(one, t)))
  {
    hide RvolAtTime, ComputeOpeningRange, RollingBaseline, RegularSession, Vwap, Swings,
         StartingFrom, CompleteEndedBy, AtrOfBars, Complete, BisectEndIn, CompletedCandles;
  }

  /** The engine serves the entry that knows nothing of the candle, the reference computes from it. */
  lemma StaleAnswered(ops: seq<Op>, s: Session, i: Instrument, c: Candle)
    requires HalfStarts(s) && c == MinuteCandle(i, s.start, s.start + 60)
    requires Known(InstrumentMap(s.instruments), i.id, i.symbol)
    requires var e := Execute(EMPTY, ops).engine;
             && OneCandleSeries(e, i.id, c)
             && i.id in e.featureCache && e.featureCache[i.id].derived.oneMinute == []
             && e.featureCache[i.id].key == CacheKey(s.market, i.id, 1, 0, 0, MinuteOf(s.start + 60))
    ensures StaleAnswer(ops, s, UnitQuote(i, s.start + 60))
  {
    hide HalfStarts, Step, Respond, Features, FreshFeatures, FullFeatures, Context, FreshContext, CacheKeyOf,
         InstrumentMap, Tracks;
    var t := s.start + 60;
    var after := ops + [OpStart(s), OpQuotes([UnitQuote(i, t)], true)];
    assert after[..|after| - 1] == ops + [OpStart(s)];
    assert (ops + [OpStart(s)])[..|ops|] == ops;
    var f := Execute(EMPTY, ops + [OpStart(s)]).engine;
    var r := Consult(BLANK, ops + [OpStart(s)]).reference;
    HalfStarted(Execute(EMPTY, ops).engine, s);
    assert OneCandleSeries(f, i.id, c);
    StaleEntry(f, s, i, c);
    RunTracks(ops + [OpStart(s)]);
    TracksSession(f, r);
    StaleQuote(f, r, s, i, t);
    OutcomeCount(after);
    OutcomeCount(ops + [OpStart(s)]);
  }

  lemma StaleQuote(f: Engine, r: Reference, s: Session, i: Instrument, t: Time)
    requires Tracks(f, r) && f.session == Some(s) && Known(f.instruments, i.id, i.symbol)
    requires Features(f, s, i.id, t) != FreshFeatures(f, s, i.id, t)
    ensures Step(f, OpQuotes([UnitQuote(i, t)], true)).outcome != Respond(r, OpQuotes([UnitQuote(i, t)], true)).outcome
  {
    hide Tracks, TakeQuote, Features, FreshFeatures, FullFeatures, AddQuotes, TakeAll, Take;
    var q := UnitQuote(i, t);
    TracksSession(f, r);
    FreshAgree(f, r, s, i.id, t);
    OneQuote(f, s, i, t, true);
    OneTake(r, s, i, t);
    QuotedFull(f, r, s, q);
  }

  lemma OneTake(r: Reference, s: Session, i: Instrument, t: Time)
    requires Known(r.instruments, i.id, i.symbol)
    ensures var next := Take(r, s, UnitQuote(i, t), true);
            TakeAll(r, s, [UnitQuote(i, t)], true) == Quoted(next, [next.snapshots[i.id]], None)
  {
    hide Take;
    assert [UnitQuote(i, t)][1..] == [];
    assert !InvalidQuoteValues(UnitQuote(i, t));
    var next := Take(r, s, UnitQuote(i, t), true);
    assert TakeAll(next, s, [], true) == Quoted(next, [], None);
  }

  lemma QuotedFull(e: Engine, r: Reference, s: Session, q: Quote)
    ensures TakeQuote(e, s, q, true).snapshots[q.id] == Full(s.market, q, Features(e, s, q.id, q.timestamp))
    ensures Take(r, s, q, true).snapshots[q.id] == Full(s.market, q, FullFeatures(r, s, q.id, q.timestamp))
  {
    hide Features, FullFeatures, Remember, BenchmarkCalculation, BenchmarkSnapshot;
    TakenReadsAlike(e, s, q, q.id, q.timestamp);
    TakenComputesAlike(r, s, q, q.id, q.timestamp);
  }

  lemma TakenComputesAlike(r: Reference, s: Session, q: Quote, id: InstrumentId, t: Time)
    ensures FullFeatures(TakenBy(r, q), s, id, t) == FullFeatures(r, s, id, t)
  {
    hide Derive, Sorted, Entries, Dates, Dated;
    assert PastSessions(TakenBy(r, q), id) == PastSessions(r, id);
  }

  /** start_session keeps every engine's cache hits fresh exactly for the sessions it does not start halfway. */
  lemma StartKeepsHitsFresh(s: Session)
    requires AlignedSession(s)
    ensures (forall ops :: GoodRun(ops) ==> FreshHits(Step(Execute(EMPTY, ops).engine, OpStart(s)).engine))
            <==> !HalfStarts(s)
  {
    hide FreshHits, Execute, Step, GoodRun, HalfStarts;
    if HalfStarts(s) {
      StaleAfterHalfStart(s);
      var ops, q :| GoodRun(ops) && StaleAnswer(ops, s, q);
    } else {
      forall ops | GoodRun(ops) ensures FreshHits(Step(Execute(EMPTY, ops).engine, OpStart(s)).engine) {
        StartAfterGoodRun(ops, s);
      }
    }
  }

  lemma StartAfterGoodRun(ops: seq<Op>, s: Session)
    requires AlignedSession(s) && !HalfStarts(s) && GoodRun(ops)
    ensures FreshHits(Step(Execute(EMPTY, ops).engine, OpStart(s)).engine)
  {
    hide Agrees, QuotesKeyed, FreshHits, Step, AlignedSession, HalfStarts;
    RunAgrees(ops);
    var e, r := Execute(EMPTY, ops).engine, Consult(BLANK, ops).reference;
    StepAgrees(e, r, OpStart(s));
    HitsOfAgreeing(Step(e, OpStart(s)).engine, Respond(r, OpStart(s)).reference);
  }

  lemma HitsOfAgreeing(e: Engine, r: Reference)
    requires Agrees(e, r)
    ensures FreshHits(e)
  {
    hide Features, FreshFeatures, Context, FreshContext, Tracks, AlignedStore, Coherent;
    if e.session.Some? {
      var s := e.session.value;
      forall id, t ensures Features(e, s, id, t) == FreshFeatures(e, s, id, t)
                   ensures Context(e, s, id, t) == FreshContext(e, s, id, t) {
        HitIsFresh(e, s, id, t);
      }
    }
  }

  /** From the n-th on, every answer is the reference's. */
  ghost predicate AnswersAgree(ops: seq<Op>, n: nat) {
    && n <= |Execute(EMPTY, ops).outcomes| == |Consult(BLANK, ops).outcomes|
    && Execute(EMPTY, ops).outcomes[n..] == Consult(BLANK, ops).outcomes[n..]
  }

  /** And exactly for those sessions nothing that is asked afterwards is answered wrong. */
  lemma StartKeepsAnswers(s: Session)
    requires AlignedSession(s)
    ensures (forall ops, more :: GoodRun(ops) && GoodSince(more, 0) ==> AnswersAgree(ops + [OpStart(s)] + more, |ops|))
            <==> !HalfStarts(s)
  {
    hide GoodRun, HalfStarts, AnswersAgree, GoodSince, StaleAnswer, AlignedSession;
    if HalfStarts(s) {
      StaleAfterHalfStart(s);
      var ops, q :| GoodRun(ops) && StaleAnswer(ops, s, q);
      QuotesAreGood(q);
      StaleDisagrees(ops, s, q);
    } else {
      forall ops, more | GoodRun(ops) && GoodSince(more, 0)
        ensures AnswersAgree(ops + [OpStart(s)] + more, |ops|) {
        AnswersAfterStart(ops, s, more);
      }
    }
  }

  lemma QuotesAreGood(q: Quote)
    ensures GoodSince([OpQuotes([q], true)], 0)
  {
  }

  lemma StaleDisagrees(ops: seq<Op>, s: Session, q: Quote)
    requires StaleAnswer(ops, s, q)
    ensures !AnswersAgree(ops + [OpStart(s)] + [OpQuotes([q], true)], |ops|)
  {
    hide FreshHits, Execute, Consult, Step;
    var after := ops + [OpStart(s), OpQuotes([q], true)];
    assert after == ops + [OpStart(s)] + [OpQuotes([q], true)];
    var x, y := Execute(EMPTY, after).outcomes, Consult(BLANK, after).outcomes;
    assert x[|ops|..][1] == x[|ops| + 1] && y[|ops|..][1] == y[|ops| + 1];
  }

  lemma AnswersAfterStart(ops: seq<Op>, s: Session, more: seq<Op>)
    requires AlignedSession(s) && !HalfStarts(s) && GoodRun(ops) && GoodSince(more, 0)
    ensures AnswersAgree(ops + [OpStart(s)] + more, |ops|)
  {
    hide Execute, Consult, HalfStarts, AlignedSession, Restarts;
    var k :| 0 <= k <= |ops| && GoodSince(ops, k);
    var all := ops + [OpStart(s)] + more;
    assert forall n :: |ops| < n < |all| ==> all[n] == more[n - |ops| - 1];
    assert GoodSince(all, k) by {
      forall n | k <= n < |all| ensures AlignedOp(all[n]) && CleanOp(all[n]) {
      }
    }
    EngineRefinesReference(all, k);
    var x, y := Execute(EMPTY, all).outcomes, Consult(BLANK, all).outcomes;
    assert x[|ops|..] == x[k..][|ops| - k..] && y[|ops|..] == y[k..][|ops| - k..];
  }

  // ------------------------------------------------------------------ times that are not whole minutes

  /** With one candle that ends inside a minute the caches go stale in that very minute: the run is
      served fresh hits exactly when the candle's end is a whole minute. */
  lemma WholeMinutesAreNeeded(z: Session, start: Time, i: Instrument, end: Time)
    requires Aligned(start) && start < end
    ensures var ops := OneCandleOps(SessionFrom(z, start, i), MinuteCandle(i, start, end), i, MinuteOf(end));
            FreshHits(Execute(EMPTY, ops).engine) <==> Aligned(end)
  {
    hide FreshHits, Execute, GoodRun;
    var s, c := SessionFrom(z, start, i), MinuteCandle(i, start, end);
    var ops := OneCandleOps(s, c, i, MinuteOf(end));
    if Aligned(end) {
      assert GoodRun(ops) by { WholeMinuteRun(z, start, i, end); }
      FreshAfterGoodRun(ops);
    } else {
      OneCandleRun(z, start, c, i, MinuteOf(end));
      OneCandleCache(s, c, i, MinuteOf(end));
      StaleInMinute(Execute(EMPTY, ops).engine, s, i, c);
    }
  }

  lemma WholeMinuteRun(z: Session, start: Time, i: Instrument, end: Time)
    requires Aligned(start) && Aligned(end)
    ensures GoodRun(OneCandleOps(SessionFrom(z, start, i), MinuteCandle(i, start, end), i, MinuteOf(end)))
  {
    assert [i][1..] == [];
    assert MarketBenchmarks([i]) <= 1;
    assert AlignedSession(SessionFrom(z, start, i)) && AlignedCandle(MinuteCandle(i, start, end));
    assert GoodSince(OneCandleOps(SessionFrom(z, start, i), MinuteCandle(i, start, end), i, MinuteOf(end)), 0);
  }

  lemma FreshAfterGoodRun(ops: seq<Op>)
    requires GoodRun(ops)
    ensures FreshHits(Execute(EMPTY, ops).engine)
  {
    hide Agrees, FreshHits, QuotesKeyed, GoodRun;
    RunAgrees(ops);
    HitsOfAgreeing(Execute(EMPTY, ops).engine, Consult(BLANK, ops).reference);
  }

  lemma StaleInMinute(e: Engine, s: Session, i: Instrument, c: Candle)
    requires c == MinuteCandle(i, s.start, c.end) && !Aligned(c.end) && e.session == Some(s)
    requires OneCandleSeries(e, i.id, c) && i.id in e.featureCache
    requires e.featureCache[i.id].key == CacheKey(s.market, i.id, 1, 0, 0, MinuteOf(MinuteOf(c.end)))
    requires e.featureCache[i.id].derived.oneMinute ==
             Complete(Slice([c], InsertionPoint([c], s.start), BisectEnd([c], MinuteOf(c.end))))
    ensures !FreshHits(e)
  {
    hide FreshFeatures, FreshContext, Context, CacheKeyOf, BisectEndIn, Complete;
    OneCandleSlices(c, MinuteOf(c.end));
    OneCandleSlices(c, c.end);
    FreshOneMinute(e, s, i.id, c.end);
    assert Slice([c], 0, 0) == [] && Slice([c], 0, 1) == [c];
    assert InsertionPoint([c], s.start) == 0;
    assert MinuteOf(MinuteOf(c.end)) == MinuteOf(c.end);
    assert CacheKeyOf(e, s, i.id, c.end) == CacheKey(s.market, i.id, 1, 0, 0, MinuteOf(c.end)) by {
      KeyOfOneCandle(e, s, i.id, c, c.end);
    }
    assert Features(e, s, i.id, c.end).oneMinute == [];
  }

  lemma KeyOfOneCandle(e: Engine, s: Session, id: InstrumentId, c: Candle, t: Time)
    requires OneCandleSeries(e, id, c)
    ensures CacheKeyOf(e, s, id, t) == CacheKey(s.market, id, 1, 0, 0, MinuteOf(t))
  {
  }

  // ------------------------------------------------------------------ a batch that raises midway

  /** No candle of the list has the key. */
  ghost predicate Untouched(cs: seq<Candle>, key: CandleKey) { forall i :: 0 <= i < |cs| ==> KeyOf(cs[i]) != key }

  /** No later candle of the list has the key of the k-th. */
  ghost predicate LastOfKey(cs: seq<Candle>, k: nat) { k < |cs| && Untouched(cs[k + 1..], KeyOf(cs[k])) }

  lemma {:induction false} UntouchedKey(e: Engine, s: Session, batch: seq<Candle>, key: CandleKey)
    requires Untouched(Accepted(e.instruments, batch), key)
    ensures var f := AddCandles(e, s, batch).0;
            (key in f.candles <==> key in e.candles) && (key in e.candles ==> f.candles[key] == e.candles[key])
    decreases |batch|
  {
    hide CandleError, AddCandle;
    if batch != [] && CandleError(e.instruments, batch[0]).None? {
      var rest := Accepted(e.instruments, batch[1..]);
      assert Accepted(e.instruments, batch)[0] == batch[0];
      assert forall i :: 0 <= i < |rest| ==> rest[i] == Accepted(e.instruments, batch)[i + 1];
      AddCandleKeepsInputs(e, s, batch[0]);
      AddCandleCandles(e, s, batch[0]);
      UntouchedKey(AddCandle(e, s, batch[0]), s, batch[1..], key);
    }
  }

  /** The last accepted candle of a key is the one the dictionary holds. */
  lemma {:induction false} LastOfKeyStays(e: Engine, s: Session, batch: seq<Candle>, k: nat)
    requires LastOfKey(Accepted(e.instruments, batch), k)
    ensures var c := Accepted(e.instruments, batch)[k];
            KeyOf(c) in AddCandles(e, s, batch).0.candles && AddCandles(e, s, batch).0.candles[KeyOf(c)] == c
    decreases |batch|
  {
    hide CandleError, AddCandle, Untouched;
    var accepted, rest := Accepted(e.instruments, batch), Accepted(e.instruments, batch[1..]);
    assert accepted[1..] == rest;
    AddCandleKeepsInputs(e, s, batch[0]);
    AddCandleCandles(e, s, batch[0]);
    var next := AddCandle(e, s, batch[0]);
    if k == 0 {
      UntouchedKey(next, s, batch[1..], KeyOf(batch[0]));
    } else {
      assert accepted[k + 1..] == rest[k..];
      LastOfKeyStays(next, s, batch[1..], k - 1);
    }
  }

  /** On a series with ordered ends the calculation at `t` reads the complete candles of the session so far. */
  lemma ReadsTheSession(e: Engine, s: Session, id: InstrumentId, t: Time, c: Candle)
    requires Increasing(SeriesOf(e, id, OneMinute)) && EndsIncreasing(SeriesOf(e, id, OneMinute))
    requires c in SeriesOf(e, id, OneMinute) && c.complete && s.start <= c.start && c.end <= t
    ensures c in FreshFeatures(e, s, id, t).oneMinute
  {
    hide RvolAtTime, ComputeOpeningRange, RollingBaseline, RegularSession, Vwap, Swings, StartingFrom, AtrOfBars,
         CompleteEndedBy, CompletedCandles, BisectEndIn;
    var one := SeriesOf(e, id, OneMinute);
    var to := BisectEnd(one, t);
    BisectEndPartitions(one, t, to);
    SliceIsFilter(one, InsertionPoint(one, s.start), to, s.start, t);
  }

  lemma ReadsNoOther(e: Engine, s: Session, id: InstrumentId, t: Time, c: Candle)
    requires c !in SeriesOf(e, id, OneMinute)
    ensures c !in FreshFeatures(e, s, id, t).oneMinute
  {
    hide RvolAtTime, ComputeOpeningRange, RollingBaseline, RegularSession, Vwap, Swings, StartingFrom, AtrOfBars,
         CompleteEndedBy, CompletedCandles, BisectEndIn;
  }

  lemma HeldIsListed(e: Engine, c: Candle)
    requires SeriesIndexed(e)
    ensures c in SeriesOf(e, c.id, c.timeframe) <==> KeyOf(c) in e.candles && e.candles[KeyOf(c)] == c
  {
    assert Indexes(SeriesOf(e, c.id, c.timeframe), Entries(e.candles, c.id, c.timeframe));
  }

  /** A raising batch puts a snapshot out of date as soon as it brings, before the refused candle, a new or
      changed complete one-minute candle of the session that ends by the quote. */
  lemma RaisingBatchOutdates(ops: seq<Op>, batch: seq<Candle>, k: nat)
    requires var e := Execute(EMPTY, ops).engine;
             && e.session.Some? && Refused(e.instruments, batch) && LastOfKey(Accepted(e.instruments, batch), k)
             && var c := Accepted(e.instruments, batch)[k];
             && c.timeframe.OneMinute? && c.complete && e.session.value.start <= c.start
             && !(KeyOf(c) in e.candles && e.candles[KeyOf(c)] == c)
             && c.id in e.quotes && c.end <= e.quotes[c.id].timestamp
             && FreshSnapshot(e, c.id)
             && EndsIncreasing(SeriesOf(Execute(EMPTY, ops + [OpCandles(batch)]).engine, c.id, OneMinute))
    ensures var e, f := Execute(EMPTY, ops).engine, Execute(EMPTY, ops + [OpCandles(batch)]).engine;
            var c := Accepted(e.instruments, batch)[k];
            f.session.Some? && c.id in f.quotes && !FreshSnapshot(f, c.id)
  {
    hide SeriesIndexed, Indexes, FreshFeatures, Accepted, Refused, AddCandles, CandleError, EndsIncreasing, Untouched;
    var e, f := Execute(EMPTY, ops).engine, Execute(EMPTY, ops + [OpCandles(batch)]).engine;
    var s, c := e.session.value, Accepted(e.instruments, batch)[k];
    assert (ops + [OpCandles(batch)])[..|ops|] == ops;
    RefusedRaises(e, s, batch);
    assert f == AddCandles(e, s, batch).0;
    AddCandlesKeepInputs(e, s, batch);
    LastOfKeyStays(e, s, batch, k);
    RunIndexed(ops);
    RunIndexed(ops + [OpCandles(batch)]);
    HeldIsListed(e, c);
    HeldIsListed(f, c);
    assert Increasing(SeriesOf(f, c.id, OneMinute)) by { IndexedIncreases(f, c.id); }
    ReadsTheSession(f, s, c.id, f.quotes[c.id].timestamp, c);
    ReadsNoOther(e, s, c.id, e.quotes[c.id].timestamp, c);
  }

  lemma IndexedIncreases(e: Engine, id: InstrumentId)
    requires SeriesIndexed(e)
    ensures Increasing(SeriesOf(e, id, OneMinute))
  {
    assert Indexes(SeriesOf(e, id, OneMinute), Entries(e.candles, id, OneMinute));
  }

  // One such run.

  /** The first candle of the batch is accepted, the second one is of no instrument of the session. */
  function RaisingOps(s: Session, start: Time, i: Instrument): seq<Op> {
    var c := MinuteCandle(i, start, start + 60);
    [OpStart(s), OpQuotes([UnitQuote(i, start + 60)], true), OpCandles([c, c.(id := i.id + 1)])]
  }

  lemma BatchRaises(e: Engine, s: Session, i: Instrument, c: Candle)
    requires e.session == Some(s) && e.instruments == map[i.id := i]
    requires c.id == i.id && c.symbol == i.symbol && c.start < c.end && c.volume >= 0 && c.low <= c.high
    ensures IngestCandles(e, [c, c.(id := i.id + 1)]) == (AddCandle(e, s, c), Some(UnknownInstrument(i.symbol)))
  {
    hide AddCandle;
    var batch := [c, c.(id := i.id + 1)];
    var added := AddCandle(e, s, c);
    AddCandleKeepsInputs(e, s, c);
    assert batch[1..] == [c.(id := i.id + 1)];
    assert AddCandles(added, s, batch[1..]) == (added, Some(UnknownInstrument(i.symbol)));
  }

  /** The accepted candle is in the series, and the instrument's snapshot does not know it. */
  lemma RaisingBatchLeavesSnapshotBehind(z: Session, start: Time, i: Instrument)
    ensures var s := SessionFrom(z, start, i);
            var e := Execute(EMPTY, RaisingOps(s, start, i)).engine;
            && e.session == Some(s) && i.id in e.quotes && i.id in e.snapshots && !FreshSnapshot(e, i.id)
  {
    hide StartSession, IngestCandles, IngestQuotes, AddCandle, TakeQuote, Complete, BisectEnd, FreshFeatures;
    var s, c, t := SessionFrom(z, start, i), MinuteCandle(i, start, start + 60), start + 60;
    var ops := RaisingOps(s, start, i);
    StartedBy(z, start, i);
    OneQuote(Started(s, i), s, i, t, true);
    var quoted := TakeQuote(Started(s, i), s, UnitQuote(i, t), true);
    QuoteKeepsCandles(Started(s, i), s, UnitQuote(i, t), true);
    BatchRaises(quoted, s, i, c);
    assert ops[..2][..1] == ops[..1] && ops[..1][..0] == [];
    assert Execute(EMPTY, ops[..1]).engine == Started(s, i);
    assert Execute(EMPTY, ops[..2]).engine == quoted;
    var e := AddCandle(quoted, s, c);
    assert Execute(EMPTY, ops).engine == e;
    AddCandleKeepsInputs(quoted, s, c);
    QuotedSnapshot(s, i, t);
    AddCandleSeries(quoted, s, c, i.id, OneMinute);
    assert SeriesOf(e, i.id, OneMinute) == [c];
    FreshOneMinute(e, s, i.id, t);
    OneCandleSlices(c, t);
    assert InsertionPoint([c], s.start) == 0 && Slice([c], 0, 1) == [c];
  }

  lemma QuotedSnapshot(s: Session, i: Instrument, t: Time)
    ensures var e := TakeQuote(Started(s, i), s, UnitQuote(i, t), true);
            && e.quotes == map[i.id := UnitQuote(i, t)] && i.id in e.snapshots && e.snapshots[i.id].Full?
            && e.snapshots[i.id].derived.oneMinute == []
  {
    hide Remember, RvolAtTime, ComputeOpeningRange, RollingBaseline, RegularSession, Vwap, Swings,
         StartingFrom, CompleteEndedBy, AtrOfBars, CompletedCandles;
    assert SeriesOf(Started(s, i), i.id, OneMinute) == [];
  }

  // ------------------------------------------------------------------ a benchmark that becomes a candidate

  /** The session's benchmark is quoted, then warmed as a candidate without new candles. */
  function PromotionOps(s: Session, benchmark: Instrument, t: Time): seq<Op> {
    [OpStart(s), OpQuotes([UnitQuote(benchmark, t)], false), OpWarm(benchmark.(role := Candidate), [])]
  }

  /** The new candidate is quoted, and its snapshot is still the benchmark-only one. */
  lemma PromotedBenchmarkKeepsItsSnapshot(z: Session, start: Time, benchmark: Instrument, t: Time)
    requires benchmark.role.Benchmark?
    ensures var s := SessionFrom(z, start, benchmark);
            var e := Execute(EMPTY, PromotionOps(s, benchmark, t)).engine;
            e.session == Some(s) && Awaiting(e, benchmark.id) && !FreshSnapshot(e, benchmark.id)
  {
    hide StartSession, Warm, IngestQuotes, FreshFeatures, TakeQuote, BatchIds, InstrumentMap, MarketBenchmarks;
    var s := SessionFrom(z, start, benchmark);
    var ops := PromotionOps(s, benchmark, t);
    StartedBy(z, start, benchmark);
    OneQuote(Started(s, benchmark), s, benchmark, t, false);
    var quoted := TakeQuote(Started(s, benchmark), s, UnitQuote(benchmark, t), false);
    QuoteKeepsCandles(Started(s, benchmark), s, UnitQuote(benchmark, t), false);
    QuotedBenchmarkOnly(Started(s, benchmark), s, UnitQuote(benchmark, t));
    NoIds();
    PromotionAwaits(quoted, benchmark.(role := Candidate), []);
    assert ops[..2][..1] == ops[..1] && ops[..1][..0] == [];
    assert Execute(EMPTY, ops[..1]).engine == Started(s, benchmark);
    assert Execute(EMPTY, ops[..2]).engine == quoted;
  }

  lemma QuotedBenchmarkOnly(e: Engine, s: Session, q: Quote)
    ensures var f := TakeQuote(e, s, q, false);
            q.id in f.quotes && q.id in f.snapshots && f.snapshots[q.id].BenchmarkOnly?
  {
    hide LastCompletedClose;
  }

  // ------------------------------------------------------------------ fast scans in the calculation

  /** On series whose ends are ordered like their starts, the bisected selections of the calculation
      are plain filters over the whole series. */
  lemma DeriveScansAll(s: Session, one: seq<Candle>, five: seq<Candle>, daily: seq<Candle>, h: History, t: Time)
    requires Increasing(one) && EndsIncreasing(one) && EndsIncreasing(five)
    ensures Derive(s, one, five, daily, h, t).oneMinute ==
            Filter(one, (c: Candle) => c.complete && s.start <= c.start && c.end <= t)
    ensures Derive(s, one, five, daily, h, t).rsiBars == RegularSession(s, CompleteEndedBy(five, t))
  {
    hide RvolAtTime, ComputeOpeningRange, RollingBaseline, RegularSession, Vwap, Swings, StartingFrom, AtrOfBars;
    CompletedCandlesIsFilter(five, t);
    var from, to := InsertionPoint(one, s.start), BisectEnd(one, t);
    BisectEndPartitions(one, t, to);
    SliceIsFilter(one, from, to, s.start, t);
  }

  lemma SliceIsFilter(one: seq<Candle>, from: nat, to: nat, start: Time, t: Time)
    requires Increasing(one) && from == InsertionPoint(one, start) && to <= |one|
    requires forall i :: 0 <= i < to ==> one[i].end <= t
    requires forall i :: to <= i < |one| ==> t < one[i].end
    ensures Complete(Slice(one, from, to)) == Filter(one, (c: Candle) => c.complete && start <= c.start && c.end <= t)
  {
    var keep := (c: Candle) => c.complete && start <= c.start && c.end <= t;
    var low := if from <= to then from else to;
    FilterMiddle(one, low, to, keep);
    forall i | low <= i < to ensures keep(one[i]) == one[i].complete {
      assert from <= i;
    }
    FilterCongruent(one[low..to], keep, (c: Candle) => c.complete);
    FilterCongruent(one, keep, (c: Candle) => c.complete && start <= c.start && c.end <= t);
  }

  lemma FilterMiddle(cs: seq<Candle>, from: nat, to: nat, keep: Candle -> bool)
    requires from <= to <= |cs|
    requires forall i :: 0 <= i < |cs| && !(from <= i < to) ==> !keep(cs[i])
    ensures Filter(cs, keep) == Filter(cs[from..to], keep)
  {
    FilterPrefix(cs, to, keep);
    FilterSuffix(cs[..to], from, keep);
    assert cs[..to][from..] == cs[from..to];
  }
}
