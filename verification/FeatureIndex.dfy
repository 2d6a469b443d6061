/** The candle series are an equivalent index of the candle dictionary, after every operation of
    every run (services/scanner/app/feature_engine.py:79-84, 390-416). */
module FeatureIndex {
  import opened Clock
  import opened Candles
  import opened FeatureState
  import opened FeatureEngines

  ghost predicate Keyed(m: map<CandleKey, Candle>) {
    forall k :: k in m ==> KeyOf(m[k]) == k
  }

  /** The candles the dictionary holds for one instrument and timeframe. */
  function Entries(m: map<CandleKey, Candle>, id: InstrumentId, tf: Timeframe): set<Candle> {
    set k | k in m && k.id == id && k.timeframe == tf :: m[k]
  }

  /** `cs` lists exactly the candles of `s`, strictly increasing by start. */
  ghost predicate Indexes(cs: seq<Candle>, s: set<Candle>) {
    Increasing(cs) && forall c :: c in cs <==> c in s
  }

  ghost predicate SeriesIndexed(e: Engine) {
    Keyed(e.candles) && forall id, tf :: Indexes(SeriesOf(e, id, tf), Entries(e.candles, id, tf))
  }

  lemma EntriesAfterPut(m: map<CandleKey, Candle>, c: Candle, id: InstrumentId, tf: Timeframe, d: Candle)
    requires Keyed(m)
    ensures d in Entries(m[KeyOf(c) := c], id, tf) <==>
            if id == c.id && tf == c.timeframe
            then d == c || (d in Entries(m, id, tf) && d.start != c.start)
            else d in Entries(m, id, tf)
  {
    var n := m[KeyOf(c) := c];
    if d in Entries(m, id, tf) {
      assert KeyOf(d) in m && m[KeyOf(d)] == d;
      if KeyOf(d) != KeyOf(c) { assert n[KeyOf(d)] == d; }
    }
    if d in Entries(n, id, tf) {
      var k :| k in n && k.id == id && k.timeframe == tf && n[k] == d;
      if k != KeyOf(c) { assert m[k] == d; }
    }
    assert n[KeyOf(c)] == c;
  }

  /** Putting a candle into an index is entering it in the indexed set. */
  lemma PutIndexes(cs: seq<Candle>, s: set<Candle>, c: Candle, t: set<Candle>)
    requires Indexes(cs, s)
    requires forall d :: d in t <==> d == c || (d in s && d.start != c.start)
    ensures Indexes(Put(cs, c), t)
  {
    PutIncreasing(cs, c);
    forall d ensures d in Put(cs, c) <==> d in t {
      PutMembers(cs, c, d);
    }
  }

  lemma AddCandleIndexed(e: Engine, s: Session, c: Candle)
    requires SeriesIndexed(e)
    ensures SeriesIndexed(AddCandle(e, s, c))
  {
    hide AddCandle, Put, Entries;
    var next := AddCandle(e, s, c);
    assert next.candles == e.candles[KeyOf(c) := c] by {
      AddCandleCandles(e, s, c);
    }
    forall id, tf ensures Indexes(SeriesOf(next, id, tf), Entries(next.candles, id, tf)) {
      AddCandleSeries(e, s, c, id, tf);
      forall d ensures d in Entries(next.candles, id, tf) <==>
                       if id == c.id && tf == c.timeframe
                       then d == c || (d in Entries(e.candles, id, tf) && d.start != c.start)
                       else d in Entries(e.candles, id, tf) {
        EntriesAfterPut(e.candles, c, id, tf, d);
      }
      if id == c.id && tf == c.timeframe {
        PutIndexes(SeriesOf(e, id, tf), Entries(e.candles, id, tf), c, Entries(next.candles, id, tf));
      }
    }
  }

  lemma AddCandleCandles(e: Engine, s: Session, c: Candle)
    ensures AddCandle(e, s, c).candles == e.candles[KeyOf(c) := c]
  {
  }

  lemma {:induction false} AddCandlesIndexed(e: Engine, s: Session, batch: seq<Candle>)
    requires SeriesIndexed(e)
    ensures SeriesIndexed(AddCandles(e, s, batch).0)
    decreases |batch|
  {
    hide SeriesIndexed, AddCandle;
    if batch != [] && CandleError(e.instruments, batch[0]).None? {
      AddCandleIndexed(e, s, batch[0]);
      AddCandlesIndexed(AddCandle(e, s, batch[0]), s, batch[1..]);
    }
  }

  /** Only the dictionary and the series matter to the index. */
  lemma SameIndex(e: Engine, f: Engine)
    requires SeriesIndexed(e) && e.candles == f.candles && e.series == f.series
    ensures SeriesIndexed(f)
  {
    hide Indexes, Entries;
    forall id, tf ensures SeriesOf(f, id, tf) == SeriesOf(e, id, tf) {
    }
  }

  lemma IngestCandlesIndexed(e: Engine, batch: seq<Candle>)
    requires SeriesIndexed(e)
    ensures SeriesIndexed(IngestCandles(e, batch).0)
  {
    hide SeriesIndexed, RefreshedFeatures, RefreshedSnapshots;
    if e.session.Some? {
      AddCandlesIndexed(e, e.session.value, batch);
      var added := AddCandles(e, e.session.value, batch).0;
      SameIndex(added, Refresh(added, e.session.value, BatchIds(batch)));
    }
  }

  /** Quotes leave the session, its instruments and everything about candles alone. */
  ghost predicate KeepsCandles(e: Engine, f: Engine) {
    && f.candles == e.candles && f.series == e.series && f.history == e.history
    && f.session == e.session && f.instruments == e.instruments && f.candidates == e.candidates
  }

  lemma QuoteKeepsCandles(e: Engine, s: Session, q: Quote, full: bool)
    ensures KeepsCandles(e, TakeQuote(e, s, q, full))
    ensures KeepsCandles(e, DropQuote(e, q.id))
  {
    hide Remember, FullSnapshot, BenchmarkSnapshot;
  }

  lemma {:induction false} AddQuotesKeepCandles(e: Engine, s: Session, quotes: seq<Quote>, benchmarks: bool)
    ensures KeepsCandles(e, AddQuotes(e, s, quotes, benchmarks).engine)
    decreases |quotes|
  {
    hide TakeQuote, DropQuote;
    if quotes != [] && Known(e.instruments, quotes[0].id, quotes[0].symbol) {
      var full := benchmarks || quotes[0].id in e.candidates;
      QuoteKeepsCandles(e, s, quotes[0], full);
      if InvalidQuoteValues(quotes[0]) {
        AddQuotesKeepCandles(DropQuote(e, quotes[0].id), s, quotes[1..], benchmarks);
      } else {
        AddQuotesKeepCandles(TakeQuote(e, s, quotes[0], full), s, quotes[1..], benchmarks);
      }
    }
  }

  lemma ForgetIndexed(e: Engine, ids: set<InstrumentId>)
    requires SeriesIndexed(e)
    ensures SeriesIndexed(Forget(e, ids))
  {
    var next := Forget(e, ids);
    forall id, tf ensures Indexes(SeriesOf(next, id, tf), Entries(next.candles, id, tf)) {
      if id in ids {
        assert Entries(next.candles, id, tf) == {};
      } else {
        assert Indexes(SeriesOf(e, id, tf), Entries(e.candles, id, tf));
        assert Entries(next.candles, id, tf) == Entries(e.candles, id, tf);
      }
    }
  }

  lemma StartIndexed(e: Engine, s: Session)
    requires SeriesIndexed(e)
    ensures SeriesIndexed(StartSession(e, s).0)
  {
    hide SeriesIndexed, Entered, MarketBenchmarks;
    EnteredKeepsCandles(e, s);
    EnteredKeepsCandles(EMPTY, s);
    if StartSession(e, s).1.Some? {
      SameIndex(e, StartSession(e, s).0);
    } else {
      EmptyIndexed(StartSession(e, s).0);
    }
  }

  lemma WarmIndexed(e: Engine, i: Instrument, batch: seq<Candle>)
    requires SeriesIndexed(e)
    ensures SeriesIndexed(Warm(e, i, batch).0)
  {
    hide SeriesIndexed, IngestCandles;
    SameIndex(e, Admit(e, i));
    IngestCandlesIndexed(Admit(e, i), batch);
  }

  lemma IngestQuotesIndexed(e: Engine, quotes: seq<Quote>, benchmarks: bool)
    requires SeriesIndexed(e)
    ensures SeriesIndexed(IngestQuotes(e, quotes, benchmarks).engine)
  {
    hide SeriesIndexed, AddQuotes;
    if e.session.Some? {
      AddQuotesKeepCandles(e, e.session.value, quotes, benchmarks);
      SameIndex(e, AddQuotes(e, e.session.value, quotes, benchmarks).engine);
    }
  }

  lemma ContextIndexed(e: Engine, id: InstrumentId, t: Time)
    requires SeriesIndexed(e)
    ensures SeriesIndexed(StrategyContext(e, id, t).engine)
  {
    hide SeriesIndexed, Context, CacheKeyOf;
    SameIndex(e, StrategyContext(e, id, t).engine);
  }

  /** Every operation keeps the index, also one that raises after part of its work. */
  lemma StepIndexed(e: Engine, op: Op)
    requires SeriesIndexed(e)
    ensures SeriesIndexed(Step(e, op).engine)
  {
    hide SeriesIndexed, StartSession, Warm, IngestCandles, IngestQuotes, Forget, StrategyContext;
    match op
    case OpStart(s) => StartIndexed(e, s);
    case OpWarm(i, batch) => WarmIndexed(e, i, batch);
    case OpRetire(ids) => ForgetIndexed(e, Retired(e, ids));
    case OpCandles(batch) => IngestCandlesIndexed(e, batch);
    case OpQuotes(quotes, benchmarks) => IngestQuotesIndexed(e, quotes, benchmarks);
    case OpContext(id, at) => ContextIndexed(e, id, at);
  }

  lemma EmptyIndexed(e: Engine)
    requires e.candles == map[] && e.series == map[]
    ensures SeriesIndexed(e)
  {
  }

  /** After any run each series is strictly increasing by start and holds exactly the dictionary's
      candles of its instrument and timeframe. */
  lemma {:induction false} RunIndexed(ops: seq<Op>)
    ensures SeriesIndexed(Execute(EMPTY, ops).engine)
  {
    hide SeriesIndexed, Step;
    if ops == [] {
      EmptyIndexed(EMPTY);
    } else {
      RunIndexed(ops[..|ops| - 1]);
      StepIndexed(Execute(EMPTY, ops[..|ops| - 1]).engine, ops[|ops| - 1]);
    }
  }
}
