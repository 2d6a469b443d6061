/** Whole runs of the feature engine: the answers of the reference engine, coherent caches and exact indexes. */
module FeatureRuns {
  import opened Lists
  import opened Clock
  import opened Candles
  import opened FeatureState
  import opened FeatureIndex
  import opened FeatureMinutes
  import opened FeatureReference
  import opened FeatureRefinement
  import opened FeatureCaches

  /** Candle, session and opening-range times of the operation are whole minutes. */
  ghost predicate AlignedOp(op: Op) {
    match op
    case OpStart(s) => AlignedSession(s)
    case OpWarm(_, batch) => AlignedCandles(batch)
    case OpCandles(batch) => AlignedCandles(batch)
    case _ => true
  }

  /** start_session raises halfway on such a session: it has replaced the session and kept the rest. */
  predicate HalfStarts(s: Session) { s.start < s.end && MarketBenchmarks(s.instruments) > 1 }

  predicate CleanOp(op: Op) { op.OpStart? ==> !HalfStarts(op.session) }

  // ------------------------------------------------------------------ snapshots

  lemma SnapshotAgrees(e: Engine, r: Reference, s: Session, q: Quote)
    requires Agrees(e, r) && e.session == Some(s)
    ensures FullSnapshot(e, s, q) == FullCalculation(r, s, q)
    ensures BenchmarkSnapshot(e, s, q) == BenchmarkCalculation(r, s, q)
  {
    hide FreshFeatures, FullFeatures, Features, Tracks, AlignedStore, Coherent, LastCompletedClose, Series, SeriesOf;
    HitIsFresh(e, s, q.id, q.timestamp);
    FreshAgree(e, r, s, q.id, q.timestamp);
    SeriesAgree(e, r, q.id, OneMinute);
  }

  // ------------------------------------------------------------------ candles

  lemma {:induction false} EnterAllAligned(r: Reference, s: Session, batch: seq<Candle>)
    requires AlignedStore(r.candles) && AlignedStore(r.completed) && AlignedCandles(batch)
    ensures var next := EnterAll(r, s, batch).0;
            AlignedStore(next.candles) && AlignedStore(next.completed)
    decreases |batch|
  {
    hide AlignedCandle, CandleError;
    if batch != [] && CandleError(r.instruments, batch[0]).None? {
      assert AlignedCandle(batch[0]);
      EnterAllAligned(Enter(r, s, batch[0]), s, batch[1..]);
    }
  }

  lemma {:induction false} AddCandlesKeepInputs(e: Engine, s: Session, batch: seq<Candle>)
    ensures var f := AddCandles(e, s, batch).0;
            f.session == e.session && f.quotes == e.quotes && f.snapshots == e.snapshots
    decreases |batch|
  {
    hide CandleError, Put, PutHistory;
    if batch != [] && CandleError(e.instruments, batch[0]).None? {
      AddCandlesKeepInputs(AddCandle(e, s, batch[0]), s, batch[1..]);
    }
  }

  lemma AddCandlesAgree(e: Engine, r: Reference, s: Session, batch: seq<Candle>)
    requires Agrees(e, r) && e.session == Some(s) && AlignedCandles(batch)
    ensures Agrees(AddCandles(e, s, batch).0, EnterAll(r, s, batch).0)
    ensures AddCandles(e, s, batch).1 == EnterAll(r, s, batch).1
    ensures AddCandles(e, s, batch).0.session == Some(s)
  {
    hide AlignedStore, Coherent, SeriesIndexed, HistoryIndexed, AlignedCandles;
    AddCandlesTrack(e, r, s, batch);
    AddCandlesCoherent(e, s, batch);
    AddCandlesKeepInputs(e, s, batch);
    EnterAllAligned(r, s, batch);
  }

  /** Entries written by the calculation join the caches; the rest of the state stands still. */
  ghost predicate CachesExtended(e: Engine, f: Engine, s: Session) {
    && f.series == e.series && f.history == e.history
    && (forall id :: id in f.featureCache ==>
          (id in e.featureCache && f.featureCache[id] == e.featureCache[id]) ||
          exists t :: f.featureCache[id] == CachedFeatures(CacheKeyOf(e, s, id, t), Features(e, s, id, t)))
    && (forall id :: id in f.contextCache ==>
          (id in e.contextCache && f.contextCache[id] == e.contextCache[id]) ||
          exists t :: f.contextCache[id] == CachedContext(CacheKeyOf(e, s, id, t), Context(e, s, id, t)))
  }

  lemma ExtendedCoherent(e: Engine, r: Reference, s: Session, f: Engine)
    requires Agrees(e, r) && e.session == Some(s) && CachesExtended(e, f, s)
    ensures Coherent(f, s)
  {
    hide CoherentFeatures, CoherentContext, Features, Context, CacheKeyOf, Tracks, AlignedStore;
    forall id | id in f.featureCache ensures CoherentFeatures(f, s, id, f.featureCache[id]) {
      SameSeries(e, f, id);
      CoherentFrame(e, f, s, id);
      if !(id in e.featureCache && f.featureCache[id] == e.featureCache[id]) {
        var t :| f.featureCache[id] == CachedFeatures(CacheKeyOf(e, s, id, t), Features(e, s, id, t));
        RememberCoherent(e, r, id, t);
      }
    }
    forall id | id in f.contextCache ensures CoherentContext(f, s, id, f.contextCache[id]) {
      SameSeries(e, f, id);
      CoherentFrame(e, f, s, id);
      if !(id in e.contextCache && f.contextCache[id] == e.contextCache[id]) {
        var t :| f.contextCache[id] == CachedContext(CacheKeyOf(e, s, id, t), Context(e, s, id, t));
        RememberCoherent(e, r, id, t);
      }
    }
  }

  lemma SameSeries(e: Engine, f: Engine, id: InstrumentId)
    requires f.series == e.series && f.history == e.history
    ensures SameCandles(e, f, id)
  {
  }

  ghost predicate QuotesKeyed(e: Engine) { forall id :: id in e.quotes ==> e.quotes[id].id == id }

  lemma RefreshExtends(e: Engine, s: Session, ids: set<InstrumentId>)
    requires QuotesKeyed(e)
    ensures CachesExtended(e, Refresh(e, s, ids), s)
  {
    hide Features, CacheKeyOf, Context, FullSnapshot;
    var f := Refresh(e, s, ids);
    forall id | id in f.featureCache
      ensures (id in e.featureCache && f.featureCache[id] == e.featureCache[id]) ||
              exists t :: f.featureCache[id] == CachedFeatures(CacheKeyOf(e, s, id, t), Features(e, s, id, t)) {
      if id in ids && id in e.quotes {
        var t := e.quotes[id].timestamp;
        assert f.featureCache[id] == CachedFeatures(CacheKeyOf(e, s, id, t), Features(e, s, id, t));
      }
    }
  }

  lemma RefreshAgrees(e: Engine, r: Reference, s: Session, ids: set<InstrumentId>)
    requires Agrees(e, r) && e.session == Some(s) && QuotesKeyed(e)
    ensures Agrees(Refresh(e, s, ids), r.(snapshots := r.snapshots + Recalculated(r, s, ids)))
  {
    hide Coherent, AlignedStore, FullSnapshot, FullCalculation, Remember, SeriesIndexed, HistoryIndexed;
    var f := Refresh(e, s, ids);
    forall id | id in e.quotes ensures FullSnapshot(e, s, e.quotes[id]) == FullCalculation(r, s, r.quotes[id]) {
      SnapshotAgrees(e, r, s, e.quotes[id]);
    }
    assert RefreshedSnapshots(e, s, ids) == Recalculated(r, s, ids);
    SameTracks(e, r, f, r.(snapshots := r.snapshots + Recalculated(r, s, ids)));
    RefreshExtends(e, s, ids);
    ExtendedCoherent(e, r, s, f);
  }

  lemma IngestCandlesAgrees(e: Engine, r: Reference, batch: seq<Candle>)
    requires Agrees(e, r) && AlignedCandles(batch) && QuotesKeyed(e)
    ensures Agrees(IngestCandles(e, batch).0, EnterBatch(r, batch).0)
    ensures IngestCandles(e, batch).1 == EnterBatch(r, batch).1
    ensures QuotesKeyed(IngestCandles(e, batch).0)
  {
    hide Tracks, Coherent, AlignedStore, AlignedCandles, RefreshedSnapshots, RefreshedFeatures, Recalculated;
    assert e.session == r.session by { TracksSession(e, r); }
    if e.session.Some? {
      var s := e.session.value;
      AddCandlesAgree(e, r, s, batch);
      AddCandlesKeepInputs(e, s, batch);
      var added := AddCandles(e, s, batch);
      if added.1.None? {
        RefreshAgrees(added.0, EnterAll(r, s, batch).0, s, BatchIds(batch));
      }
    }
  }

  lemma TracksSession(e: Engine, r: Reference)
    requires Tracks(e, r)
    ensures e.session == r.session && e.instruments == r.instruments && e.candidates == r.candidates
    ensures e.quotes == r.quotes && e.unavailable == r.unavailable && e.candles == r.candles
  {
  }

  // ------------------------------------------------------------------ quotes

  function Taken(e: Engine, q: Quote): Engine {
    e.(unavailable := e.unavailable - {q.id}, quotes := e.quotes[q.id := q])
  }

  function TakenBy(r: Reference, q: Quote): Reference {
    r.(unavailable := r.unavailable - {q.id}, quotes := r.quotes[q.id := q])
  }

  lemma TakenAgrees(e: Engine, r: Reference, s: Session, q: Quote)
    requires Agrees(e, r) && e.session == Some(s) && QuotesKeyed(e)
    ensures Agrees(Taken(e, q), TakenBy(r, q)) && QuotesKeyed(Taken(e, q))
  {
    hide Coherent, AlignedStore, SeriesIndexed, HistoryIndexed;
    SameTracks(e, r, Taken(e, q), TakenBy(r, q));
    assert CachesExtended(e, Taken(e, q), s);
    ExtendedCoherent(e, r, s, Taken(e, q));
  }

  lemma TakeQuoteAgrees(e: Engine, r: Reference, s: Session, q: Quote, full: bool)
    requires Agrees(e, r) && e.session == Some(s) && QuotesKeyed(e)
    ensures Agrees(TakeQuote(e, s, q, full), Take(r, s, q, full))
    ensures QuotesKeyed(TakeQuote(e, s, q, full))
    ensures TakeQuote(e, s, q, full).snapshots[q.id] == Take(r, s, q, full).snapshots[q.id]
  {
    hide Coherent, AlignedStore, FullSnapshot, FullCalculation, BenchmarkSnapshot, BenchmarkCalculation, Features,
         CacheKeyOf, SeriesIndexed, HistoryIndexed, CachesExtended;
    TakenAgrees(e, r, s, q);
    SnapshotAgrees(Taken(e, q), TakenBy(r, q), s, q);
    var f := TakeQuote(e, s, q, full);
    SameTracks(Taken(e, q), TakenBy(r, q), f, Take(r, s, q, full));
    TakeQuoteExtends(Taken(e, q), s, q, full, f);
    ExtendedCoherent(Taken(e, q), TakenBy(r, q), s, f);
  }

  lemma TakeQuoteExtends(taken: Engine, s: Session, q: Quote, full: bool, f: Engine)
    requires f.series == taken.series && f.history == taken.history && f.contextCache == taken.contextCache
    requires f.featureCache == if full then taken.featureCache[q.id := Remember(taken, s, q)] else taken.featureCache
    ensures CachesExtended(taken, f, s)
  {
    hide Features, Context, CacheKeyOf;
    if full {
      var t := q.timestamp;
      assert f.featureCache[q.id] == CachedFeatures(CacheKeyOf(taken, s, q.id, t), Features(taken, s, q.id, t));
    }
  }

  lemma DropQuoteAgrees(e: Engine, r: Reference, s: Session, id: InstrumentId)
    requires Agrees(e, r) && e.session == Some(s) && QuotesKeyed(e)
    ensures Agrees(DropQuote(e, id), Lose(r, id))
    ensures QuotesKeyed(DropQuote(e, id))
  {
    hide Coherent, AlignedStore, SeriesIndexed, HistoryIndexed;
    SameTracks(e, r, DropQuote(e, id), Lose(r, id));
    assert CachesExtended(e, DropQuote(e, id), s);
    ExtendedCoherent(e, r, s, DropQuote(e, id));
  }

  lemma {:induction false} AddQuotesAgree(e: Engine, r: Reference, s: Session, quotes: seq<Quote>, benchmarks: bool)
    requires Agrees(e, r) && e.session == Some(s) && QuotesKeyed(e)
    ensures var x, y := AddQuotes(e, s, quotes, benchmarks), TakeAll(r, s, quotes, benchmarks);
            Agrees(x.engine, y.reference) && x.snapshots == y.snapshots && x.error == y.error && QuotesKeyed(x.engine)
    decreases |quotes|
  {
    hide Agrees, QuotesKeyed, TakeQuote, Take, DropQuote, Lose;
    assert e.instruments == r.instruments && e.candidates == r.candidates by { AgreesInputs(e, r); }
    if quotes != [] && Known(e.instruments, quotes[0].id, quotes[0].symbol) {
      var q := quotes[0];
      var full := benchmarks || q.id in e.candidates;
      QuoteKeepsCandles(e, s, q, full);
      if InvalidQuoteValues(q) {
        if e.instruments[q.id].role.Benchmark? {
          DropQuoteAgrees(e, r, s, q.id);
          AddQuotesAgree(DropQuote(e, q.id), Lose(r, q.id), s, quotes[1..], benchmarks);
        }
      } else {
        TakeQuoteAgrees(e, r, s, q, full);
        AddQuotesAgree(TakeQuote(e, s, q, full), Take(r, s, q, full), s, quotes[1..], benchmarks);
      }
    }
  }

  lemma AgreesInputs(e: Engine, r: Reference)
    requires Agrees(e, r)
    ensures e.session == r.session && e.instruments == r.instruments && e.candidates == r.candidates
    ensures e.quotes == r.quotes && e.snapshots == r.snapshots && e.unavailable == r.unavailable
  {
  }

  // ------------------------------------------------------------------ the remaining operations

  lemma StartAgrees(e: Engine, r: Reference, s: Session)
    requires Agrees(e, r) && QuotesKeyed(e) && AlignedSession(s) && !HalfStarts(s)
    ensures Agrees(StartSession(e, s).0, Start(r, s).0)
    ensures StartSession(e, s).1 == Start(r, s).1
    ensures QuotesKeyed(StartSession(e, s).0)
  {
    hide Tracks, InstrumentMap, CandidateIds, MarketBenchmarks, AlignedCandle, AlignedSession;
    if s.start < s.end {
      BlankTracks(StartSession(e, s).0, Start(r, s).0);
    }
  }

  lemma JoinAgrees(e: Engine, r: Reference, i: Instrument)
    requires Agrees(e, r) && QuotesKeyed(e) && e.session.Some?
    ensures Agrees(Admit(e, i), Join(r, i)) && QuotesKeyed(Admit(e, i))
  {
    hide Coherent, AlignedStore, SeriesIndexed, HistoryIndexed, Features, Context, CacheKeyOf;
    SameTracks(e, r, Admit(e, i), Join(r, i));
    ExtendedCoherent(e, r, e.session.value, Admit(e, i));
  }

  lemma ForgetAgrees(e: Engine, r: Reference, ids: set<InstrumentId>)
    requires Agrees(e, r) && QuotesKeyed(e) && e.session.Some?
    ensures Agrees(Forget(e, ids), Leave(r, ids)) && QuotesKeyed(Forget(e, ids))
  {
    hide Tracks, CoherentFeatures, CoherentContext, AlignedCandle;
    ForgetTracks(e, r, ids);
    TracksSession(e, r);
    var f, s := Forget(e, ids), e.session.value;
    forall id | id !in ids
      ensures forall cached :: CoherentFeatures(e, s, id, cached) == CoherentFeatures(f, s, id, cached)
      ensures forall cached :: CoherentContext(e, s, id, cached) == CoherentContext(f, s, id, cached) {
      assert SameCandles(e, f, id);
      CoherentFrame(e, f, s, id);
    }
  }

  lemma ContextAgrees(e: Engine, r: Reference, id: InstrumentId, t: Time)
    requires Agrees(e, r) && QuotesKeyed(e)
    ensures var x, y := StrategyContext(e, id, t), Respond(r, OpContext(id, t));
            Agrees(x.engine, y.reference) && x.outcome == y.outcome && QuotesKeyed(x.engine)
  {
    hide Tracks, Coherent, AlignedStore, Features, Context, CacheKeyOf, FullContext, FreshContext;
    AgreesInputs(e, r);
    if e.session.Some? && id in e.instruments {
      var s := e.session.value;
      var f := StrategyContext(e, id, t).engine;
      HitIsFresh(e, s, id, t);
      FreshAgree(e, r, s, id, t);
      SameTracks(e, r, f, r);
      ContextExtends(e, s, id, t);
      ExtendedCoherent(e, r, s, f);
    }
  }

  lemma ContextExtends(e: Engine, s: Session, id: InstrumentId, t: Time)
    ensures CachesExtended(e, e.(contextCache := e.contextCache[id :=
              CachedContext(CacheKeyOf(e, s, id, t), Context(e, s, id, t))]), s)
  {
    hide Features, Context, CacheKeyOf;
  }

  lemma WarmAgrees(e: Engine, r: Reference, i: Instrument, batch: seq<Candle>)
    requires Agrees(e, r) && QuotesKeyed(e) && AlignedCandles(batch)
    ensures var x, y := Warm(e, i, batch), Respond(r, OpWarm(i, batch));
            Agrees(x.0, y.reference) && OutcomeOf(x.1) == y.outcome && QuotesKeyed(x.0)
  {
    hide Agrees, QuotesKeyed, AlignedCandles, IngestCandles, EnterBatch, Admit, Join;
    AgreesInputs(e, r);
    if e.session.Some? {
      JoinAgrees(e, r, i);
      IngestCandlesAgrees(Admit(e, i), Join(r, i), batch);
    }
  }

  lemma RetireAgrees(e: Engine, r: Reference, ids: seq<InstrumentId>)
    requires Agrees(e, r) && QuotesKeyed(e)
    ensures var x, y := Retire(e, ids), Respond(r, OpRetire(ids));
            Agrees(x.0, y.reference) && OutcomeOf(x.1) == y.outcome && QuotesKeyed(x.0)
  {
    hide Agrees, QuotesKeyed, Forget, Leave;
    AgreesInputs(e, r);
    if e.session.Some? {
      ForgetAgrees(e, r, Retired(e, ids));
      assert Retired(e, ids) == set id | id in ids && id in r.instruments;
    }
  }

  lemma QuotesAgree(e: Engine, r: Reference, quotes: seq<Quote>, benchmarks: bool)
    requires Agrees(e, r) && QuotesKeyed(e)
    ensures var x, y := Step(e, OpQuotes(quotes, benchmarks)), Respond(r, OpQuotes(quotes, benchmarks));
            Agrees(x.engine, y.reference) && x.outcome == y.outcome && QuotesKeyed(x.engine)
  {
    hide Agrees, QuotesKeyed, AddQuotes, TakeAll;
    AgreesInputs(e, r);
    if e.session.Some? {
      AddQuotesAgree(e, r, e.session.value, quotes, benchmarks);
    }
  }

  /** One operation: the same answer, and the two still agree. */
  lemma StepAgrees(e: Engine, r: Reference, op: Op)
    requires Agrees(e, r) && QuotesKeyed(e) && AlignedOp(op) && CleanOp(op)
    ensures Agrees(Step(e, op).engine, Respond(r, op).reference)
    ensures Step(e, op).outcome == Respond(r, op).outcome
    ensures QuotesKeyed(Step(e, op).engine)
  {
    hide Agrees, QuotesKeyed, StartSession, Start, Warm, Retire, IngestCandles, EnterBatch, StrategyContext,
         AlignedSession, AlignedCandles, HalfStarts;
    match op
    case OpStart(s) => StartAgrees(e, r, s);
    case OpWarm(i, batch) => WarmAgrees(e, r, i, batch);
    case OpRetire(ids) => RetireAgrees(e, r, ids);
    case OpCandles(batch) => IngestCandlesAgrees(e, r, batch);
    case OpQuotes(quotes, benchmarks) => QuotesAgree(e, r, quotes, benchmarks);
    case OpContext(id, at) => ContextAgrees(e, r, id, at);
  }

  /** A start that succeeds: it clears everything. */
  predicate Restarts(op: Op) {
    op.OpStart? && op.session.start < op.session.end && MarketBenchmarks(op.session.instruments) <= 1
  }

  /** Since operation `k`, a successful start or the very first one, all operations are on whole minutes and
      none starts halfway. */
  ghost predicate GoodSince(ops: seq<Op>, k: nat) {
    && k <= |ops| && (k == 0 || (k < |ops| && Restarts(ops[k])))
    && forall i :: k <= i < |ops| ==> AlignedOp(ops[i]) && CleanOp(ops[i])
  }

  /** Only what happened since the last successful start need be good. */
  ghost predicate GoodRun(ops: seq<Op>) { exists k :: 0 <= k <= |ops| && GoodSince(ops, k) }

  /** Whatever went before, a successful start makes the two engines agree. */
  lemma RestartAgrees(e: Engine, r: Reference, op: Op)
    requires Restarts(op) && AlignedOp(op)
    ensures Agrees(Step(e, op).engine, Respond(r, op).reference) && QuotesKeyed(Step(e, op).engine)
    ensures Step(e, op).outcome == Respond(r, op).outcome
  {
    hide Agrees, QuotesKeyed, Entered, MarketBenchmarks, InstrumentMap, CandidateIds, AlignedSession;
    EmptyAgrees();
    StartAgrees(EMPTY, BLANK, op.session);
  }

  lemma {:induction false} OutcomeCount(ops: seq<Op>)
    ensures |Execute(EMPTY, ops).outcomes| == |Consult(BLANK, ops).outcomes| == |ops|
  {
    hide Step, Respond;
    if ops != [] { OutcomeCount(ops[..|ops| - 1]); }
  }

  lemma {:induction false} RunAgreesSince(ops: seq<Op>, k: nat)
    requires GoodSince(ops, k)
    ensures Agrees(Execute(EMPTY, ops).engine, Consult(BLANK, ops).reference)
    ensures QuotesKeyed(Execute(EMPTY, ops).engine)
    ensures k <= |Execute(EMPTY, ops).outcomes| == |Consult(BLANK, ops).outcomes|
    ensures Execute(EMPTY, ops).outcomes[k..] == Consult(BLANK, ops).outcomes[k..]
  {
    hide Agrees, QuotesKeyed, AlignedOp, CleanOp, Restarts, Step, Respond;
    OutcomeCount(ops);
    if ops == [] {
      EmptyAgrees();
    } else {
      var n := |ops| - 1;
      var e, r := Execute(EMPTY, ops[..n]), Consult(BLANK, ops[..n]);
      OutcomeCount(ops[..n]);
      if k == n > 0 {
        RestartAgrees(e.engine, r.reference, ops[n]);
      } else {
        RunAgreesSince(ops[..n], k);
        StepAgrees(e.engine, r.reference, ops[n]);
      }
      SuffixSnoc(e.outcomes, Step(e.engine, ops[n]).outcome, k);
      SuffixSnoc(r.outcomes, Respond(r.reference, ops[n]).outcome, k);
    }
  }

  lemma RunAgrees(ops: seq<Op>)
    requires GoodRun(ops)
    ensures Agrees(Execute(EMPTY, ops).engine, Consult(BLANK, ops).reference)
    ensures QuotesKeyed(Execute(EMPTY, ops).engine)
  {
    hide Agrees, QuotesKeyed, GoodSince;
    var k :| 0 <= k <= |ops| && GoodSince(ops, k);
    RunAgreesSince(ops, k);
  }

  lemma EmptyAgrees()
    ensures Agrees(EMPTY, BLANK) && QuotesKeyed(EMPTY)
  {
    BlankTracks(EMPTY, BLANK);
  }

  /** The indexed and cached engine refines the flat one: whatever happened before a successful start, from
      then on every run gets the reference's answers, errors included. */
  lemma EngineRefinesReference(ops: seq<Op>, k: nat)
    requires GoodSince(ops, k)
    ensures |Execute(EMPTY, ops).outcomes| == |Consult(BLANK, ops).outcomes| == |ops|
    ensures Execute(EMPTY, ops).outcomes[k..] == Consult(BLANK, ops).outcomes[k..]
  {
    RunAgreesSince(ops, k);
    OutcomeCount(ops);
  }

  /** Cache coherence over whole runs: what a hit returns is what a fresh computation gives,
      from the series as well as from the flat dictionary. */
  lemma CachesCoherentAfterRun(ops: seq<Op>, id: InstrumentId, t: Time)
    requires GoodRun(ops) && Execute(EMPTY, ops).engine.session.Some?
    ensures var e, r := Execute(EMPTY, ops).engine, Consult(BLANK, ops).reference;
            var s := e.session.value;
            && Features(e, s, id, t) == FreshFeatures(e, s, id, t) == FullFeatures(r, s, id, t)
            && Context(e, s, id, t) == FreshContext(e, s, id, t) == FullContext(r, s, id, t)
  {
    hide Execute, Consult, GoodRun, Features, FreshFeatures, FullFeatures, Context, FreshContext, FullContext, Tracks,
         AlignedStore, Coherent;
    RunAgrees(ops);
    var e, r := Execute(EMPTY, ops).engine, Consult(BLANK, ops).reference;
    HitIsFresh(e, e.session.value, id, t);
    FreshAgree(e, r, e.session.value, id, t);
  }

  // ------------------------------------------------------------------ indexes, aligned or not

  lemma IngestCandlesTracks(e: Engine, r: Reference, batch: seq<Candle>)
    requires Tracks(e, r)
    ensures Tracks(IngestCandles(e, batch).0, EnterBatch(r, batch).0)
  {
    hide SeriesIndexed, HistoryIndexed, RefreshedFeatures, RefreshedSnapshots, Recalculated;
    if e.session.Some? {
      var s := e.session.value;
      AddCandlesTrack(e, r, s, batch);
      var added, entered := AddCandles(e, s, batch).0, EnterAll(r, s, batch).0;
      SameTracks(added, entered, Refresh(added, s, BatchIds(batch)),
                 entered.(snapshots := entered.snapshots + Recalculated(entered, s, BatchIds(batch))));
    }
  }

  lemma QuoteTracks(e: Engine, r: Reference, s: Session, q: Quote, full: bool)
    requires Tracks(e, r)
    ensures Tracks(TakeQuote(e, s, q, full), Take(r, s, q, full))
    ensures Tracks(DropQuote(e, q.id), Lose(r, q.id))
  {
    hide SeriesIndexed, HistoryIndexed, Remember, FullSnapshot, BenchmarkSnapshot, FullCalculation,
         BenchmarkCalculation;
    SameTracks(e, r, TakeQuote(e, s, q, full), Take(r, s, q, full));
    SameTracks(e, r, DropQuote(e, q.id), Lose(r, q.id));
  }

  lemma {:induction false} AddQuotesTrack(e: Engine, r: Reference, s: Session, quotes: seq<Quote>, benchmarks: bool)
    requires Tracks(e, r)
    ensures Tracks(AddQuotes(e, s, quotes, benchmarks).engine, TakeAll(r, s, quotes, benchmarks).reference)
    decreases |quotes|
  {
    hide Tracks, TakeQuote, Take, DropQuote, Lose;
    TracksSession(e, r);
    if quotes != [] && Known(e.instruments, quotes[0].id, quotes[0].symbol) {
      var q := quotes[0];
      var full := benchmarks || q.id in e.candidates;
      QuoteTracks(e, r, s, q, full);
      if InvalidQuoteValues(q) {
        if e.instruments[q.id].role.Benchmark? {
          AddQuotesTrack(DropQuote(e, q.id), Lose(r, q.id), s, quotes[1..], benchmarks);
        }
      } else {
        AddQuotesTrack(TakeQuote(e, s, q, full), Take(r, s, q, full), s, quotes[1..], benchmarks);
      }
    }
  }

  lemma StartTracks(e: Engine, r: Reference, s: Session)
    requires Tracks(e, r)
    ensures Tracks(StartSession(e, s).0, Start(r, s).0)
  {
    hide Tracks, InstrumentMap, CandidateIds, MarketBenchmarks;
    TracksSession(e, r);
    if HalfStarts(s) {
      SameTracks(e, r, StartSession(e, s).0, Start(r, s).0);
    } else if s.start < s.end {
      BlankTracks(StartSession(e, s).0, Start(r, s).0);
    }
  }

  lemma ContextTracks(e: Engine, r: Reference, id: InstrumentId, t: Time)
    requires Tracks(e, r)
    ensures Tracks(StrategyContext(e, id, t).engine, r)
  {
    hide SeriesIndexed, HistoryIndexed, Context, CacheKeyOf;
    SameTracks(e, r, StrategyContext(e, id, t).engine, r);
  }

  lemma JoinTracks(e: Engine, r: Reference, i: Instrument)
    requires Tracks(e, r)
    ensures Tracks(Admit(e, i), Join(r, i))
  {
    hide SeriesIndexed, HistoryIndexed;
    SameTracks(e, r, Admit(e, i), Join(r, i));
  }

  lemma StepTracks(e: Engine, r: Reference, op: Op)
    requires Tracks(e, r)
    ensures Tracks(Step(e, op).engine, Respond(r, op).reference)
  {
    hide Tracks, StartSession, Start, IngestCandles, EnterBatch, StrategyContext, Admit, Join, Forget, Leave,
         AddQuotes, TakeAll, FullContext;
    TracksSession(e, r);
    match op
    case OpStart(s) => StartTracks(e, r, s);
    case OpWarm(i, batch) =>
      JoinTracks(e, r, i);
      IngestCandlesTracks(Admit(e, i), Join(r, i), batch);
    case OpRetire(ids) =>
      ForgetTracks(e, r, Retired(e, ids));
      assert Retired(e, ids) == set id | id in ids && id in r.instruments;
    case OpCandles(batch) => IngestCandlesTracks(e, r, batch);
    case OpQuotes(quotes, benchmarks) =>
      if e.session.Some? { AddQuotesTrack(e, r, e.session.value, quotes, benchmarks); }
    case OpContext(id, at) => ContextTracks(e, r, id, at);
  }

  lemma {:induction false} RunTracks(ops: seq<Op>)
    ensures Tracks(Execute(EMPTY, ops).engine, Consult(BLANK, ops).reference)
  {
    hide Tracks, Step, Respond;
    if ops == [] {
      BlankTracks(EMPTY, BLANK);
    } else {
      var n := |ops| - 1;
      RunTracks(ops[..n]);
      StepTracks(Execute(EMPTY, ops[..n]).engine, Consult(BLANK, ops[..n]).reference, ops[n]);
    }
  }

  /** After any run, raising operations and half starts included, the historical index lists date by date, for every
      start before the session, exactly the latest complete one-minute record that was accepted. */
  lemma HistoryAfterRun(ops: seq<Op>, id: InstrumentId)
    ensures HistoryOf(Execute(EMPTY, ops).engine, id) == PastSessions(Consult(BLANK, ops).reference, id)
  {
    hide Execute, Consult, HistoryIndexes, PastSessions, HistoryOf, SeriesIndexed;
    RunTracks(ops);
    HistoryIsSorted(HistoryOf(Execute(EMPTY, ops).engine, id), Consult(BLANK, ops).reference, id);
  }
}
