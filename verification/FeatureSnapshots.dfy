/** Which published snapshots are up to date: a snapshot falls behind, and heals, by exact operations, also where
    a session that starts halfway leaves the caches of the old one in place. */
module FeatureSnapshots {
  import opened Lists
  import opened Clock
  import opened Candles
  import opened FeatureState
  import opened FeatureEngines
  import opened FeatureIndex
  import opened FeatureMinutes
  import opened FeatureCaches
  import opened FeatureRuns

  // ------------------------------------------------------------------ snapshots up to date

  /** The snapshot is the full calculation from the series on the latest quote. */
  ghost predicate FreshSnapshot(e: Engine, id: InstrumentId)
    requires e.session.Some? && id in e.quotes
  {
    && id in e.snapshots
    && e.snapshots[id] == Full(e.session.value.market, e.quotes[id],
                               FreshFeatures(e, e.session.value, id, e.quotes[id].timestamp))
  }

  /** The snapshot is the benchmark-only calculation from the series on the latest quote. */
  ghost predicate FreshBenchmark(e: Engine, id: InstrumentId)
    requires e.session.Some? && id in e.quotes
  {
    && id in e.snapshots
    && e.snapshots[id] == BenchmarkOnly(e.session.value.market, e.quotes[id],
                                        LastCompletedClose(SeriesOf(e, id, OneMinute), e.quotes[id].timestamp - 300))
  }

  ghost predicate Settled(e: Engine, id: InstrumentId)
    requires e.session.Some?
  {
    id in e.quotes ==> FreshSnapshot(e, id) || FreshBenchmark(e, id)
  }

  // ------------------------------------------------------------------ what an operation puts in doubt

  /** The candles before the first refused one. */
  function Accepted(instruments: map<InstrumentId, Instrument>, batch: seq<Candle>): seq<Candle> {
    if batch == [] || CandleError(instruments, batch[0]).Some? then []
    else [batch[0]] + Accepted(instruments, batch[1..])
  }

  predicate Refused(instruments: map<InstrumentId, Instrument>, batch: seq<Candle>) {
    batch != [] && (CandleError(instruments, batch[0]).Some? || Refused(instruments, batch[1..]))
  }

  /** Instruments with a feature entry, or a context entry, of a session that was replaced halfway, and those
      with candles, a session or such an entry that their snapshot does not account for. */
  datatype Doubts = Doubts(features: set<InstrumentId>, contexts: set<InstrumentId>, behind: set<InstrumentId>)

  const NO_DOUBTS := Doubts({}, {}, {})

  function Cleared(d: Doubts, ids: set<InstrumentId>): Doubts {
    Doubts(d.features - ids, d.contexts - ids, d.behind - ids)
  }

  /** An accepted candle makes the entries of its instrument harmless. The snapshot falls behind if the batch
      raises later, and is recalculated otherwise. */
  function DoubtsAfterBatch(instruments: map<InstrumentId, Instrument>, batch: seq<Candle>, d: Doubts): Doubts {
    var entered := BatchIds(Accepted(instruments, batch));
    var cleared := Cleared(d, entered);
    if Refused(instruments, batch) then cleared.(behind := d.behind + entered) else cleared
  }

  /** A full calculation served from a doubtful entry puts the snapshot in doubt; any other one replaces the entry
      and clears both. A benchmark-only calculation reads no cache. */
  function DoubtsAfterQuote(e: Engine, s: Session, q: Quote, full: bool, d: Doubts): Doubts {
    if !full then d.(behind := d.behind - {q.id})
    else if q.id in d.features && HitsFeatures(e, s, q.id, q.timestamp) then d.(behind := d.behind + {q.id})
    else d.(features := d.features - {q.id}, behind := d.behind - {q.id})
  }

  function DoubtsAfterQuotes(e: Engine, s: Session, quotes: seq<Quote>, benchmarks: bool, d: Doubts): Doubts
    decreases |quotes|
  {
    if quotes == [] || !Known(e.instruments, quotes[0].id, quotes[0].symbol) then d
    else
      var q := quotes[0];
      if !InvalidQuoteValues(q) then
        var full := benchmarks || q.id in e.candidates;
        DoubtsAfterQuotes(TakeQuote(e, s, q, full), s, quotes[1..], benchmarks, DoubtsAfterQuote(e, s, q, full, d))
      else if e.instruments[q.id].role.Benchmark? then
        DoubtsAfterQuotes(DropQuote(e, q.id), s, quotes[1..], benchmarks, d.(behind := d.behind - {q.id}))
      else d
  }

  function DoubtsAfter(e: Engine, op: Op, d: Doubts): Doubts {
    match op
    case OpStart(s) =>
      if s.end <= s.start then d
      else if MarketBenchmarks(s.instruments) > 1 then
        Doubts(d.features + e.featureCache.Keys, d.contexts + e.contextCache.Keys, d.behind + e.quotes.Keys)
      else NO_DOUBTS
    case OpWarm(i, batch) =>
      if e.session.None? || (i.id in e.instruments && e.instruments[i.id].symbol != i.symbol) then d
      else DoubtsAfterBatch(Admit(e, i).instruments, batch, d)
    case OpRetire(ids) => if Retire(e, ids).1.Some? then d else Cleared(d, Retired(e, ids))
    case OpCandles(batch) => if e.session.None? then d else DoubtsAfterBatch(e.instruments, batch, d)
    case OpQuotes(quotes, benchmarks) =>
      if e.session.None? then d else DoubtsAfterQuotes(e, e.session.value, quotes, benchmarks, d)
    case OpContext(id, at) =>
      if e.session.None? || id !in e.instruments || HitsContext(e, e.session.value, id, at) then d
      else d.(contexts := d.contexts - {id})
  }

  // ------------------------------------------------------------------ one instrument's entries and snapshot

  ghost predicate Certain(e: Engine, s: Session, id: InstrumentId, d: Doubts)
    requires e.session == Some(s)
  {
    && (id in d.features || SoundFeatures(e, s, id))
    && (id in d.contexts || SoundContext(e, s, id))
    && (id in d.behind || Settled(e, id))
  }

  /** The instrument's times are whole minutes, and what is not in doubt is right. */
  ghost predicate InOrder(e: Engine, id: InstrumentId, d: Doubts) {
    && OnMinutes(e, id) && CountedEntries(e, id)
    && (id in e.quotes ==> e.quotes[id].id == id)
    && (e.session.Some? ==> AlignedSession(e.session.value) && Certain(e, e.session.value, id, d))
  }

  /** Two engines have the same candles, entries, quote and snapshot of the instrument. */
  ghost predicate SameAt(e: Engine, f: Engine, id: InstrumentId) {
    && SameCandles(e, f, id) && e.session == f.session
    && (id in e.featureCache <==> id in f.featureCache)
    && (id in e.featureCache ==> e.featureCache[id] == f.featureCache[id])
    && (id in e.contextCache <==> id in f.contextCache)
    && (id in e.contextCache ==> e.contextCache[id] == f.contextCache[id])
    && SameQuoteAt(e, f, id)
  }

  ghost predicate SameQuoteAt(e: Engine, f: Engine, id: InstrumentId) {
    && (id in e.quotes <==> id in f.quotes)
    && (id in e.quotes ==> e.quotes[id] == f.quotes[id])
    && (id in e.snapshots <==> id in f.snapshots)
    && (id in e.snapshots ==> e.snapshots[id] == f.snapshots[id])
  }

  lemma SettledFrame(e: Engine, f: Engine, id: InstrumentId)
    requires SameCandles(e, f, id) && SameQuoteAt(e, f, id) && e.session == f.session && e.session.Some?
    ensures Settled(e, id) == Settled(f, id)
  {
    hide Derive, LastCompletedClose, SeriesOf, HistoryOf;
  }

  /** The instrument is in no more doubt than before. */
  predicate Within(id: InstrumentId, d: Doubts, c: Doubts) {
    && (id in d.features ==> id in c.features)
    && (id in d.contexts ==> id in c.contexts)
    && (id in d.behind ==> id in c.behind)
  }

  lemma InOrderFrame(e: Engine, f: Engine, id: InstrumentId, d: Doubts, c: Doubts)
    requires InOrder(e, id, d) && SameAt(e, f, id) && Within(id, d, c)
    ensures InOrder(f, id, c)
  {
    hide Settled, CoherentFeatures, CoherentContext, SeriesOf, HistoryOf, AlignedCandles, AlignedHistory,
         AlignedSession;
    if e.session.Some? {
      CoherentFrame(e, f, e.session.value, id);
      SettledFrame(e, f, id);
    }
  }

  // ------------------------------------------------------------------ candles

  lemma PutAligned(cs: seq<Candle>, c: Candle)
    requires AlignedCandles(cs) && AlignedCandle(c)
    ensures AlignedCandles(Put(cs, c))
  {
    hide AlignedCandle;
  }

  lemma AddCandleOnMinutes(e: Engine, s: Session, c: Candle, id: InstrumentId)
    requires OnMinutes(e, id) && AlignedCandle(c)
    ensures OnMinutes(AddCandle(e, s, c), id)
  {
    hide AlignedCandles, AlignedCandle, AddCandle, SeriesOf, HistoryOf, Put, UtcDate;
    forall tf ensures AlignedCandles(SeriesOf(AddCandle(e, s, c), id, tf)) {
      AddCandleSeries(e, s, c, id, tf);
      PutAligned(SeriesOf(e, id, tf), c);
    }
    AddCandleHistory(e, s, c, id);
    var h, date := HistoryOf(e, id), UtcDate(c.start);
    assert AlignedCandles([]) by { NoneAligned(); }
    PutAligned(if date in h then h[date] else [], c);
  }

  lemma NoneAligned()
    ensures AlignedCandles([])
  {
  }

  lemma AddCandleElsewhere(e: Engine, s: Session, c: Candle, id: InstrumentId)
    requires id != c.id
    ensures SameAt(e, AddCandle(e, s, c), id)
  {
    hide Put, PutHistory, SeriesOf, HistoryOf;
    forall tf { AddCandleSeries(e, s, c, id, tf); }
    AddCandleHistory(e, s, c, id);
  }

  lemma SameAtChains(e: Engine, f: Engine, g: Engine, id: InstrumentId)
    requires SameAt(e, f, id) && SameAt(f, g, id)
    ensures SameAt(e, g, id)
  {
    hide SeriesOf, HistoryOf;
  }

  lemma {:induction false} AddCandlesElsewhere(e: Engine, s: Session, batch: seq<Candle>, id: InstrumentId)
    requires id !in BatchIds(Accepted(e.instruments, batch))
    ensures SameAt(e, AddCandles(e, s, batch).0, id)
    decreases |batch|
  {
    hide CandleError, SameAt, AddCandle;
    if batch == [] || CandleError(e.instruments, batch[0]).Some? {
      SameAtItself(e, id);
    } else {
      AcceptedIds(e.instruments, batch);
      var next := AddCandle(e, s, batch[0]);
      AddCandleKeepsInputs(e, s, batch[0]);
      AddCandleElsewhere(e, s, batch[0], id);
      AddCandlesElsewhere(next, s, batch[1..], id);
      SameAtChains(e, next, AddCandles(e, s, batch).0, id);
    }
  }

  lemma SameAtItself(e: Engine, id: InstrumentId)
    ensures SameAt(e, e, id)
  {
  }

  lemma AcceptedIds(instruments: map<InstrumentId, Instrument>, batch: seq<Candle>)
    requires batch != [] && CandleError(instruments, batch[0]).None?
    ensures BatchIds(Accepted(instruments, batch)) == {batch[0].id} + BatchIds(Accepted(instruments, batch[1..]))
  {
    hide CandleError;
    var rest := Accepted(instruments, batch[1..]);
    assert ([batch[0]] + rest)[0] == batch[0];
    assert forall c :: c in rest ==> c in [batch[0]] + rest;
  }

  lemma AddCandleKeepsInputs(e: Engine, s: Session, c: Candle)
    ensures AddCandle(e, s, c).instruments == e.instruments && AddCandle(e, s, c).snapshots == e.snapshots
    ensures AddCandle(e, s, c).session == e.session && AddCandle(e, s, c).quotes == e.quotes
    ensures AddCandle(e, s, c).candidates == e.candidates
  {
  }

  lemma {:induction false} RefusedRaises(e: Engine, s: Session, batch: seq<Candle>)
    ensures AddCandles(e, s, batch).1.Some? == Refused(e.instruments, batch)
    ensures !Refused(e.instruments, batch) ==> Accepted(e.instruments, batch) == batch
    decreases |batch|
  {
    hide CandleError, AddCandle;
    if batch != [] && CandleError(e.instruments, batch[0]).None? {
      AddCandleKeepsInputs(e, s, batch[0]);
      RefusedRaises(AddCandle(e, s, batch[0]), s, batch[1..]);
      assert batch == [batch[0]] + batch[1..];
    }
  }

  /** Whatever the entries were, after a candle of their instrument they are coherent, and stay so. */
  lemma {:induction false} AddCandlesHeal(e: Engine, s: Session, batch: seq<Candle>, id: InstrumentId)
    requires SeriesIndexed(e) && OnMinutes(e, id) && CountedEntries(e, id) && AlignedCandles(batch)
    ensures var f, entered := AddCandles(e, s, batch).0, id in BatchIds(Accepted(e.instruments, batch));
            && OnMinutes(f, id) && CountedEntries(f, id)
            && (entered || SoundFeatures(e, s, id) ==> SoundFeatures(f, s, id))
            && (entered || SoundContext(e, s, id) ==> SoundContext(f, s, id))
    decreases |batch|
  {
    hide SeriesIndexed, OnMinutes, CountedEntries, SoundFeatures, SoundContext, CandleError, AddCandle, AlignedCandle,
         BatchIds;
    if batch != [] && CandleError(e.instruments, batch[0]).None? {
      var next := AddCandle(e, s, batch[0]);
      assert AlignedCandle(batch[0]);
      AcceptedIds(e.instruments, batch);
      AddCandleKeepsInputs(e, s, batch[0]);
      AddCandleOnMinutes(e, s, batch[0], id);
      AddCandleIndexed(e, s, batch[0]);
      AddCandleCacheEntry(e, s, batch[0], id);
      AddCandlesHeal(next, s, batch[1..], id);
    } else {
      NoIds();
    }
  }

  lemma NoIds()
    ensures BatchIds([]) == {}
  {
  }

  lemma RefreshElsewhere(e: Engine, s: Session, ids: set<InstrumentId>, id: InstrumentId)
    requires id !in ids
    ensures SameAt(e, Refresh(e, s, ids), id)
  {
    hide Remember, FullSnapshot, SameCandles;
    SameSeries(e, Refresh(e, s, ids), id);
  }

  /** A recalculated instrument gets a coherent entry and a fresh snapshot. */
  lemma RefreshSettles(e: Engine, s: Session, ids: set<InstrumentId>, id: InstrumentId)
    requires id in ids && e.session == Some(s) && AlignedSession(s) && OnMinutes(e, id)
    requires CountedEntries(e, id) && SoundFeatures(e, s, id) && (id in e.quotes ==> e.quotes[id].id == id)
    ensures var f := Refresh(e, s, ids);
            && SameCandles(e, f, id) && CountedEntries(f, id) && SoundFeatures(f, s, id) && Settled(f, id)
            && f.contextCache == e.contextCache && f.session == e.session && f.quotes == e.quotes
  {
    hide FreshFeatures, Features, CacheKeyOf, OnMinutes, AlignedSession, CoherentContext, SeriesOf, HistoryOf,
         LastCompletedClose, FreshInMinute;
    var f := Refresh(e, s, ids);
    SameSeries(e, f, id);
    CoherentFrame(e, f, s, id);
    if id in e.quotes {
      var t := e.quotes[id].timestamp;
      SoundHitIsFresh(e, s, id, t);
      FreshEntryCoherent(e, s, id, t);
      FreshFrame(e, f, s, id, t);
    }
  }

  lemma FreshFrame(e: Engine, f: Engine, s: Session, id: InstrumentId, t: Time)
    requires SameCandles(e, f, id)
    ensures FreshFeatures(e, s, id, t) == FreshFeatures(f, s, id, t)
  {
    hide Derive, SeriesOf, HistoryOf;
  }

  lemma BatchInOrder(e: Engine, batch: seq<Candle>, id: InstrumentId, d: Doubts)
    requires SeriesIndexed(e) && e.session.Some? && AlignedCandles(batch) && InOrder(e, id, d)
    ensures InOrder(IngestCandles(e, batch).0, id, DoubtsAfterBatch(e.instruments, batch, d))
  {
    hide SeriesIndexed, AlignedCandles, AlignedSession, SoundFeatures, SoundContext, Settled, AddCandles, Refresh,
         Accepted, Refused, OnMinutes, CountedEntries, SameCandles, BatchIds;
    var s := e.session.value;
    var added := AddCandles(e, s, batch).0;
    var entered := BatchIds(Accepted(e.instruments, batch));
    AddCandlesKeepInputs(e, s, batch);
    RefusedRaises(e, s, batch);
    AddCandlesHeal(e, s, batch, id);
    if id !in entered {
      AddCandlesElsewhere(e, s, batch, id);
      SettledFrame(e, added, id);
    }
    if !Refused(e.instruments, batch) {
      if id in entered {
        RefreshSettles(added, s, entered, id);
        RefreshFrame(added, s, entered, id);
      } else {
        RefreshElsewhere(added, s, entered, id);
        InOrderFrame(added, Refresh(added, s, entered), id, d, DoubtsAfterBatch(e.instruments, batch, d));
      }
    }
  }

  lemma RefreshFrame(e: Engine, s: Session, ids: set<InstrumentId>, id: InstrumentId)
    ensures OnMinutes(e, id) ==> OnMinutes(Refresh(e, s, ids), id)
    ensures SoundContext(e, s, id) ==> SoundContext(Refresh(e, s, ids), s, id)
  {
    hide RefreshedFeatures, RefreshedSnapshots, AlignedCandles, AlignedHistory, CoherentContext;
    SameSeries(e, Refresh(e, s, ids), id);
    CoherentFrame(e, Refresh(e, s, ids), s, id);
  }

  // ------------------------------------------------------------------ quotes

  lemma TakenReadsAlike(e: Engine, s: Session, q: Quote, id: InstrumentId, t: Time)
    ensures HitsFeatures(Taken(e, q), s, id, t) == HitsFeatures(e, s, id, t)
    ensures Features(Taken(e, q), s, id, t) == Features(e, s, id, t)
    ensures CacheKeyOf(Taken(e, q), s, id, t) == CacheKeyOf(e, s, id, t)
  {
    hide Derive;
  }

  /** The entry under the quote's key, and the snapshot from it, are fresh unless the key hits a doubtful entry. */
  lemma FullQuoteInOrder(e: Engine, s: Session, q: Quote, d: Doubts)
    requires InOrder(e, q.id, d) && e.session == Some(s)
    ensures InOrder(TakeQuote(e, s, q, true), q.id, DoubtsAfterQuote(e, s, q, true, d))
  {
    hide FreshFeatures, Features, OnMinutes, AlignedSession, CoherentContext, SeriesOf, HistoryOf, LastCompletedClose,
         FreshInMinute, Context;
    var id, t, f := q.id, q.timestamp, TakeQuote(e, s, q, true);
    TakenReadsAlike(e, s, q, id, t);
    SameSeries(e, f, id);
    CoherentFrame(e, f, s, id);
    OnMinutesFrame(e, f, id);
    FreshFrame(e, f, s, id, t);
    SoundHitIsFresh(e, s, id, t);
    FreshEntryCoherent(e, s, id, t);
    if !HitsFeatures(e, s, id, t) { MissIsFresh(e, s, id, t); }
  }

  lemma MissIsFresh(e: Engine, s: Session, id: InstrumentId, t: Time)
    ensures !HitsFeatures(e, s, id, t) ==> Features(e, s, id, t) == FreshFeatures(e, s, id, t)
    ensures !HitsContext(e, s, id, t) ==> Context(e, s, id, t) == FreshContext(e, s, id, t)
  {
    hide Derive, DeriveContext;
  }

  lemma OnMinutesFrame(e: Engine, f: Engine, id: InstrumentId)
    requires SameCandles(e, f, id)
    ensures OnMinutes(e, id) == OnMinutes(f, id)
  {
    hide AlignedCandles, AlignedHistory, SeriesOf, HistoryOf;
  }

  lemma BenchmarkQuoteInOrder(e: Engine, s: Session, q: Quote, d: Doubts)
    requires InOrder(e, q.id, d) && e.session == Some(s)
    ensures InOrder(TakeQuote(e, s, q, false), q.id, DoubtsAfterQuote(e, s, q, false, d))
  {
    hide FreshSnapshot, OnMinutes, AlignedSession, CoherentFeatures, CoherentContext, SeriesOf, HistoryOf,
         LastCompletedClose;
    var f := TakeQuote(e, s, q, false);
    SameSeries(e, Taken(e, q), q.id);
    SameSeries(e, f, q.id);
    CoherentFrame(e, f, s, q.id);
    OnMinutesFrame(e, f, q.id);
  }

  lemma DroppedQuoteInOrder(e: Engine, id: InstrumentId, d: Doubts)
    requires InOrder(e, id, d)
    ensures InOrder(DropQuote(e, id), id, d.(behind := d.behind - {id}))
  {
    hide OnMinutes, AlignedSession, CoherentFeatures, CoherentContext, SeriesOf, HistoryOf;
    var f := DropQuote(e, id);
    SameSeries(e, f, id);
    OnMinutesFrame(e, f, id);
    if e.session.Some? { CoherentFrame(e, f, e.session.value, id); }
  }

  lemma QuoteElsewhere(e: Engine, s: Session, q: Quote, full: bool, id: InstrumentId)
    requires id != q.id
    ensures SameAt(e, TakeQuote(e, s, q, full), id) && SameAt(e, DropQuote(e, q.id), id)
  {
    hide Remember, FullSnapshot, BenchmarkSnapshot, SameCandles;
    SameSeries(e, TakeQuote(e, s, q, full), id);
    SameSeries(e, DropQuote(e, q.id), id);
  }

  lemma QuoteInOrder(e: Engine, s: Session, q: Quote, full: bool, id: InstrumentId, d: Doubts)
    requires InOrder(e, id, d) && e.session == Some(s)
    ensures InOrder(TakeQuote(e, s, q, full), id, DoubtsAfterQuote(e, s, q, full, d))
    ensures InOrder(DropQuote(e, q.id), id, d.(behind := d.behind - {q.id}))
  {
    hide InOrder, TakeQuote, DropQuote, HitsFeatures, SameAt;
    if id != q.id {
      QuoteElsewhere(e, s, q, full, id);
      InOrderFrame(e, TakeQuote(e, s, q, full), id, d, DoubtsAfterQuote(e, s, q, full, d));
      InOrderFrame(e, DropQuote(e, q.id), id, d, d.(behind := d.behind - {q.id}));
    } else {
      DroppedQuoteInOrder(e, id, d);
      if full { FullQuoteInOrder(e, s, q, d); } else { BenchmarkQuoteInOrder(e, s, q, d); }
    }
  }

  lemma {:induction false} QuotesInOrder(
      e: Engine, s: Session, quotes: seq<Quote>, benchmarks: bool, id: InstrumentId, d: Doubts)
    requires InOrder(e, id, d) && e.session == Some(s)
    ensures InOrder(AddQuotes(e, s, quotes, benchmarks).engine, id, DoubtsAfterQuotes(e, s, quotes, benchmarks, d))
    decreases |quotes|
  {
    hide InOrder, TakeQuote, DropQuote, DoubtsAfterQuote;
    if quotes != [] && Known(e.instruments, quotes[0].id, quotes[0].symbol) {
      var q := quotes[0];
      var full := benchmarks || q.id in e.candidates;
      QuoteInOrder(e, s, q, full, id, d);
      QuoteKeepsCandles(e, s, q, full);
      if !InvalidQuoteValues(q) {
        QuotesInOrder(TakeQuote(e, s, q, full), s, quotes[1..], benchmarks, id, DoubtsAfterQuote(e, s, q, full, d));
      } else if e.instruments[q.id].role.Benchmark? {
        QuotesInOrder(DropQuote(e, q.id), s, quotes[1..], benchmarks, id, d.(behind := d.behind - {q.id}));
      }
    }
  }

  // ------------------------------------------------------------------ the remaining operations

  lemma ForgetInOrder(e: Engine, ids: set<InstrumentId>, id: InstrumentId, d: Doubts)
    requires InOrder(e, id, d)
    ensures InOrder(Forget(e, ids), id, Cleared(d, ids))
  {
    var f := Forget(e, ids);
    if id in ids {
      assert forall tf :: SeriesOf(f, id, tf) == [];
      assert HistoryOf(f, id) == map[];
    } else {
      ForgetElsewhere(e, ids, id);
      InOrderFrame(e, f, id, d, Cleared(d, ids));
    }
  }

  lemma ForgetElsewhere(e: Engine, ids: set<InstrumentId>, id: InstrumentId)
    requires id !in ids
    ensures SameAt(e, Forget(e, ids), id)
  {
    hide WithoutCandles;
  }

  lemma AdmitInOrder(e: Engine, i: Instrument, id: InstrumentId, d: Doubts)
    requires InOrder(e, id, d)
    ensures InOrder(Admit(e, i), id, d)
  {
    hide InOrder;
    assert SameAt(e, Admit(e, i), id);
    InOrderFrame(e, Admit(e, i), id, d, d);
  }

  lemma WarmInOrder(e: Engine, i: Instrument, batch: seq<Candle>, id: InstrumentId, d: Doubts)
    requires SeriesIndexed(e) && AlignedCandles(batch) && InOrder(e, id, d)
    ensures InOrder(Warm(e, i, batch).0, id, DoubtsAfter(e, OpWarm(i, batch), d))
  {
    hide SeriesIndexed, AlignedCandles, InOrder, IngestCandles, DoubtsAfterBatch;
    if e.session.Some? {
      AdmitInOrder(e, i, id, d);
      SameIndex(e, Admit(e, i));
      BatchInOrder(Admit(e, i), batch, id, d);
    }
  }

  lemma ContextInOrder(e: Engine, of: InstrumentId, t: Time, id: InstrumentId, d: Doubts)
    requires InOrder(e, id, d)
    ensures InOrder(StrategyContext(e, of, t).engine, id, DoubtsAfter(e, OpContext(of, t), d))
  {
    hide InOrder, HitsContext, Context, CacheKeyOf, SameAt;
    if e.session.Some? && of in e.instruments {
      var f, c := StrategyContext(e, of, t).engine, DoubtsAfter(e, OpContext(of, t), d);
      if id != of {
        ContextElsewhere(e, of, t, id);
        InOrderFrame(e, f, id, d, c);
      } else {
        OwnContextInOrder(e, id, t, d);
      }
    }
  }

  lemma ContextElsewhere(e: Engine, of: InstrumentId, t: Time, id: InstrumentId)
    requires id != of
    ensures SameAt(e, StrategyContext(e, of, t).engine, id)
  {
    hide Context, CacheKeyOf, SameAt;
    SameAtItself(e, id);
    if e.session.Some? {
      var s := e.session.value;
      OtherContextElsewhere(e, of, CachedContext(CacheKeyOf(e, s, of, t), Context(e, s, of, t)), id);
    }
  }

  lemma OtherContextElsewhere(e: Engine, of: InstrumentId, entry: CachedContext, id: InstrumentId)
    requires id != of
    ensures SameAt(e, e.(contextCache := e.contextCache[of := entry]), id)
  {
  }

  lemma OwnContextInOrder(e: Engine, id: InstrumentId, t: Time, d: Doubts)
    requires InOrder(e, id, d) && e.session.Some? && id in e.instruments
    ensures InOrder(StrategyContext(e, id, t).engine, id, DoubtsAfter(e, OpContext(id, t), d))
  {
    hide FreshContext, Context, OnMinutes, AlignedSession, CoherentFeatures, SeriesOf, HistoryOf, Settled,
         ContextFreshInMinute, Derive;
    var s, f := e.session.value, StrategyContext(e, id, t).engine;
    SameSeries(e, f, id);
    CoherentFrame(e, f, s, id);
    OnMinutesFrame(e, f, id);
    SettledFrame(e, f, id);
    SoundHitIsFresh(e, s, id, t);
    FreshEntryCoherent(e, s, id, t);
    MissIsFresh(e, s, id, t);
    if HitsContext(e, s, id, t) { HitKeepsEntry(e, s, id, t); }
  }

  lemma HitKeepsEntry(e: Engine, s: Session, id: InstrumentId, t: Time)
    requires HitsContext(e, s, id, t)
    ensures e.contextCache[id] == CachedContext(CacheKeyOf(e, s, id, t), Context(e, s, id, t))
  {
    hide DeriveContext;
  }

  lemma StartInOrder(e: Engine, s: Session, id: InstrumentId, d: Doubts)
    requires AlignedSession(s) && (InOrder(e, id, d) || (s.start < s.end && !HalfStarts(s)))
    ensures InOrder(StartSession(e, s).0, id, DoubtsAfter(e, OpStart(s), d))
  {
    hide InstrumentMap, CandidateIds, MarketBenchmarks, FreshFeatures, FreshContext, AlignedCandles, AlignedSession,
         LastCompletedClose;
    var f := StartSession(e, s).0;
    if s.start < s.end && !HalfStarts(s) {
      assert forall tf :: SeriesOf(f, id, tf) == [];
      NoneAligned();
      assert HistoryOf(f, id) == map[];
    } else if HalfStarts(s) {
      SameSeries(e, f, id);
      OnMinutesFrame(e, f, id);
    }
  }

  /** After any operation on whole minutes, whatever raised or started halfway, what is not in doubt is right. */
  lemma StepSettles(e: Engine, op: Op, id: InstrumentId, d: Doubts)
    requires SeriesIndexed(e) && AlignedOp(op) && (InOrder(e, id, d) || Restarts(op))
    ensures InOrder(Step(e, op).engine, id, DoubtsAfter(e, op, d))
  {
    hide SeriesIndexed, InOrder, StartSession, Warm, AddCandles, Refresh, AddQuotes, Forget, StrategyContext,
         AlignedSession, AlignedCandles, MarketBenchmarks, DoubtsAfterBatch, DoubtsAfterQuotes;
    match op
    case OpStart(s) => StartInOrder(e, s, id, d);
    case OpWarm(i, batch) => WarmInOrder(e, i, batch, id, d);
    case OpRetire(ids) => ForgetInOrder(e, Retired(e, ids), id, d);
    case OpCandles(batch) => if e.session.Some? { BatchInOrder(e, batch, id, d); }
    case OpQuotes(quotes, benchmarks) =>
      if e.session.Some? { QuotesInOrder(e, e.session.value, quotes, benchmarks, id, d); }
    case OpContext(of, at) => ContextInOrder(e, of, at, id, d);
  }

  // ------------------------------------------------------------------ over a whole run

  /** Since operation `k`, a successful start or the very first one, all operations are on whole minutes. */
  ghost predicate AlignedSince(ops: seq<Op>, k: nat) {
    && k <= |ops| && (k == 0 || (k < |ops| && Restarts(ops[k])))
    && forall i :: k <= i < |ops| ==> AlignedOp(ops[i])
  }

  function DoubtsOver(ops: seq<Op>): Doubts {
    if ops == [] then NO_DOUBTS
    else
      var n := |ops| - 1;
      DoubtsAfter(Execute(EMPTY, ops[..n]).engine, ops[n], DoubtsOver(ops[..n]))
  }

  lemma {:induction false} InOrderAfterRun(ops: seq<Op>, k: nat, id: InstrumentId)
    requires AlignedSince(ops, k)
    ensures InOrder(Execute(EMPTY, ops).engine, id, DoubtsOver(ops))
  {
    hide InOrder, SeriesIndexed, Step, DoubtsAfter, AlignedOp, Restarts;
    if ops == [] {
      EmptyInOrder(id);
    } else {
      var n := |ops| - 1;
      RunIndexed(ops[..n]);
      if k < n || k == 0 { InOrderAfterRun(ops[..n], k, id); }
      StepSettles(Execute(EMPTY, ops[..n]).engine, ops[n], id, DoubtsOver(ops[..n]));
    }
  }

  lemma EmptyInOrder(id: InstrumentId)
    ensures InOrder(EMPTY, id, NO_DOUBTS)
  {
    hide AlignedCandles;
    assert forall tf :: SeriesOf(EMPTY, id, tf) == [];
    NoneAligned();
    assert HistoryOf(EMPTY, id) == map[];
  }

  /** After every run on whole minutes, sessions that started halfway included, each cache hit of an instrument
      not in doubt is what a fresh computation from the series gives. */
  lemma HitsFreshUnlessInDoubt(ops: seq<Op>, k: nat, id: InstrumentId, t: Time)
    requires AlignedSince(ops, k) && Execute(EMPTY, ops).engine.session.Some?
    ensures var e, d := Execute(EMPTY, ops).engine, DoubtsOver(ops);
            var s := e.session.value;
            && (id !in d.features ==> Features(e, s, id, t) == FreshFeatures(e, s, id, t))
            && (id !in d.contexts ==> Context(e, s, id, t) == FreshContext(e, s, id, t))
  {
    hide Execute, DoubtsOver, AlignedSince, OnMinutes, CountedEntries, SoundFeatures, SoundContext, Settled, Features,
         FreshFeatures, Context, FreshContext;
    InOrderAfterRun(ops, k, id);
    SoundHitIsFresh(Execute(EMPTY, ops).engine, Execute(EMPTY, ops).engine.session.value, id, t);
  }

  /** And the snapshot of a quoted instrument not left behind is up to date: the full calculation from the series
      on its latest quote if it is a full one, else the benchmark-only calculation. */
  lemma SnapshotsCurrentAfterRun(ops: seq<Op>, k: nat, id: InstrumentId)
    requires AlignedSince(ops, k) && id !in DoubtsOver(ops).behind
    requires var e := Execute(EMPTY, ops).engine; e.session.Some? && id in e.quotes
    ensures var e := Execute(EMPTY, ops).engine;
            && id in e.snapshots
            && (FreshSnapshot(e, id) <==> e.snapshots[id].Full?)
            && (FreshBenchmark(e, id) <==> e.snapshots[id].BenchmarkOnly?)
  {
    hide Execute, DoubtsOver, AlignedSince, OnMinutes, CountedEntries, SoundFeatures, SoundContext, FreshFeatures,
         LastCompletedClose;
    InOrderAfterRun(ops, k, id);
  }

  /** Only sessions that start halfway put cache entries in doubt. */
  lemma {:induction false} NoDoubtfulEntries(ops: seq<Op>, k: nat)
    requires GoodSince(ops, k)
    ensures DoubtsOver(ops).features == {} && DoubtsOver(ops).contexts == {}
  {
    hide Step, AlignedOp, DoubtsAfter;
    if ops != [] {
      var n := |ops| - 1;
      if k < n || k == 0 { NoDoubtfulEntries(ops[..n], k); }
      NoneBecomeDoubtful(Execute(EMPTY, ops[..n]).engine, ops[n], DoubtsOver(ops[..n]));
    }
  }

  lemma NoneBecomeDoubtful(e: Engine, op: Op, d: Doubts)
    requires CleanOp(op) && ((d.features == {} && d.contexts == {}) || Restarts(op))
    ensures DoubtsAfter(e, op, d).features == {} && DoubtsAfter(e, op, d).contexts == {}
  {
    hide DoubtsAfterQuotes, Retire, Accepted, Refused, MarketBenchmarks;
    if op.OpQuotes? && e.session.Some? {
      NoneDoubtfulAfterQuotes(e, e.session.value, op.quotes, op.includeBenchmarks, d);
    }
  }

  lemma {:induction false} NoneDoubtfulAfterQuotes(
      e: Engine, s: Session, quotes: seq<Quote>, benchmarks: bool, d: Doubts)
    requires d.features == {} && d.contexts == {}
    ensures var c := DoubtsAfterQuotes(e, s, quotes, benchmarks, d); c.features == {} && c.contexts == {}
    decreases |quotes|
  {
    hide TakeQuote, DropQuote;
    if quotes != [] && Known(e.instruments, quotes[0].id, quotes[0].symbol) {
      var q := quotes[0];
      var full := benchmarks || q.id in e.candidates;
      if !InvalidQuoteValues(q) {
        var next := DoubtsAfterQuote(e, s, q, full, d);
        NoneDoubtfulAfterQuotes(TakeQuote(e, s, q, full), s, quotes[1..], benchmarks, next);
      } else if e.instruments[q.id].role.Benchmark? {
        NoneDoubtfulAfterQuotes(DropQuote(e, q.id), s, quotes[1..], benchmarks, d.(behind := d.behind - {q.id}));
      }
    }
  }

  /** What leaves the snapshot of an instrument behind: a session that starts halfway, for every quoted one; a batch
      that raises, for the instruments of its candles; and a quote, if there is an entry in doubt to serve it from. */
  ghost predicate LeavesBehind(e: Engine, op: Op, d: Doubts, id: InstrumentId) {
    match op
    case OpStart(s) => s.start < s.end && !Restarts(op) && id in e.quotes
    case OpWarm(_, batch) => Step(e, op).outcome.Raised? && exists c :: c in batch && c.id == id
    case OpCandles(batch) => Step(e, op).outcome.Raised? && exists c :: c in batch && c.id == id
    case OpQuotes(quotes, _) => id in d.features && exists q :: q in quotes && q.id == id
    case _ => false
  }

  lemma {:induction false} AcceptedListed(
      instruments: map<InstrumentId, Instrument>, batch: seq<Candle>, id: InstrumentId)
    requires id in BatchIds(Accepted(instruments, batch))
    ensures exists c :: c in batch && c.id == id
  {
    if id != batch[0].id {
      AcceptedListed(instruments, batch[1..], id);
    } else {
      assert batch[0] in batch;
    }
  }

  lemma {:induction false} QuotesLeaveBehind(
      e: Engine, s: Session, quotes: seq<Quote>, benchmarks: bool, d: Doubts, id: InstrumentId)
    requires id in DoubtsAfterQuotes(e, s, quotes, benchmarks, d).behind && id !in d.behind
    ensures id in d.features && exists q :: q in quotes && q.id == id
    decreases |quotes|
  {
    hide TakeQuote, DropQuote, HitsFeatures;
    var q := quotes[0];
    assert q in quotes;
    if q.id != id || !InvalidQuoteValues(q) {
      var full := benchmarks || q.id in e.candidates;
      if InvalidQuoteValues(q) {
        QuotesLeaveBehind(DropQuote(e, q.id), s, quotes[1..], benchmarks, d.(behind := d.behind - {q.id}), id);
      } else if id !in DoubtsAfterQuote(e, s, q, full, d).behind {
        QuotesLeaveBehind(TakeQuote(e, s, q, full), s, quotes[1..], benchmarks, DoubtsAfterQuote(e, s, q, full, d), id);
      }
    } else {
      QuotesLeaveBehind(DropQuote(e, q.id), s, quotes[1..], benchmarks, d.(behind := d.behind - {q.id}), id);
    }
  }

  lemma BatchLeavesBehind(e: Engine, batch: seq<Candle>, d: Doubts, id: InstrumentId)
    requires e.session.Some? && id in DoubtsAfterBatch(e.instruments, batch, d).behind && id !in d.behind
    ensures IngestCandles(e, batch).1.Some? && exists c :: c in batch && c.id == id
  {
    hide Accepted, Refused, AddCandles, Refresh;
    RefusedRaises(e, e.session.value, batch);
    AcceptedListed(e.instruments, batch, id);
  }

  /** Nothing else does. */
  lemma OnlyFailuresLeaveBehind(e: Engine, op: Op, d: Doubts, id: InstrumentId)
    requires id in DoubtsAfter(e, op, d).behind && id !in d.behind
    ensures LeavesBehind(e, op, d, id)
  {
    hide IngestCandles, IngestQuotes, Retire, DoubtsAfterBatch, DoubtsAfterQuotes, StrategyContext, MarketBenchmarks;
    match op
    case OpWarm(i, batch) => BatchLeavesBehind(Admit(e, i), batch, d, id);
    case OpCandles(batch) => BatchLeavesBehind(e, batch, d, id);
    case OpQuotes(quotes, benchmarks) => QuotesLeaveBehind(e, e.session.value, quotes, benchmarks, d, id);
    case _ =>
  }

  /** So after a run without a half start or a raising batch since the last successful start no snapshot is behind. */
  lemma {:induction false} NothingLeftBehind(ops: seq<Op>, k: nat)
    requires GoodSince(ops, k)
    requires forall i :: k <= i < |ops| && (ops[i].OpCandles? || ops[i].OpWarm?) ==>
      !Step(Execute(EMPTY, ops[..i]).engine, ops[i]).outcome.Raised?
    ensures DoubtsOver(ops).behind == {}
  {
    hide Step, AlignedOp, DoubtsAfter, Execute;
    if ops != [] {
      var n := |ops| - 1;
      var e, d := Execute(EMPTY, ops[..n]).engine, DoubtsOver(ops[..n]);
      if k < n || k == 0 {
        forall i | 0 <= i < n ensures ops[..n][..i] == ops[..i] {
        }
        NothingLeftBehind(ops[..n], k);
        NoDoubtfulEntries(ops[..n], k);
        forall id ensures id !in DoubtsOver(ops).behind {
          if id in DoubtsOver(ops).behind { OnlyFailuresLeaveBehind(e, ops[n], d, id); }
        }
      } else {
        RestartForgets(e, ops[n], d);
      }
    }
  }

  lemma RestartForgets(e: Engine, op: Op, d: Doubts)
    requires Restarts(op)
    ensures DoubtsAfter(e, op, d) == NO_DOUBTS
  {
  }

  // ------------------------------------------------------------------ candidates with a benchmark-only snapshot

  /** A quoted candidate whose snapshot still is the benchmark-only one: it is not the full calculation. */
  predicate Awaiting(e: Engine, id: InstrumentId) {
    id in e.candidates && id in e.quotes && id in e.snapshots && e.snapshots[id].BenchmarkOnly?
  }

  /** A warmed candidate awaits its calculation exactly when it came with a benchmark-only snapshot and the
      batch does not recalculate it. */
  lemma PromotionAwaits(e: Engine, i: Instrument, batch: seq<Candle>)
    requires e.session.Some? && (i.id in e.instruments ==> e.instruments[i.id].symbol == i.symbol)
    requires i.role.Candidate?
    ensures var after := Step(e, OpWarm(i, batch)).engine;
            && (Awaiting(after, i.id) <==>
                && i.id in e.quotes && i.id in e.snapshots && e.snapshots[i.id].BenchmarkOnly?
                && (Refused(Admit(e, i).instruments, batch) || i.id !in BatchIds(batch)))
            && after.session == e.session && (Awaiting(after, i.id) ==> !FreshSnapshot(after, i.id))
  {
    hide FreshFeatures, Refused, CandleError, AddCandles, Remember, Features;
    RefusedRaises(Admit(e, i), e.session.value, batch);
    AddCandlesKeepCandidates(Admit(e, i), e.session.value, batch);
  }

  lemma {:induction false} AddCandlesKeepCandidates(e: Engine, s: Session, batch: seq<Candle>)
    ensures var f := AddCandles(e, s, batch).0;
            && f.session == e.session && f.quotes == e.quotes && f.snapshots == e.snapshots
            && f.candidates == e.candidates && f.instruments == e.instruments
    decreases |batch|
  {
    hide CandleError, AddCandle;
    if batch != [] && CandleError(e.instruments, batch[0]).None? {
      AddCandleKeepsInputs(e, s, batch[0]);
      AddCandlesKeepCandidates(AddCandle(e, s, batch[0]), s, batch[1..]);
    }
  }

  /** Nothing else makes a candidate await its calculation, but a session that starts halfway. */
  lemma OnlyPromotionAwaits(e: Engine, op: Op, id: InstrumentId)
    requires !Awaiting(e, id) && Awaiting(Step(e, op).engine, id)
    ensures (op.OpStart? && HalfStarts(op.session)) ||
            (op.OpWarm? && op.instrument.id == id && op.instrument.role.Candidate? && id !in e.candidates)
  {
    hide AddQuotes, AddCandles, InstrumentMap, CandidateIds, MarketBenchmarks, WithoutCandles, Remember, Features,
         Context, CacheKeyOf;
    match op
    case OpQuotes(quotes, benchmarks) =>
      if e.session.Some? { QuotesLeaveNoneAwaiting(e, e.session.value, quotes, benchmarks, id); }
    case OpCandles(batch) => if e.session.Some? { AddCandlesKeepCandidates(e, e.session.value, batch); }
    case OpWarm(i, batch) => if e.session.Some? { AddCandlesKeepCandidates(Admit(e, i), e.session.value, batch); }
    case _ =>
  }

  lemma QuoteLeavesNoneAwaiting(e: Engine, s: Session, q: Quote, full: bool, id: InstrumentId)
    requires !Awaiting(e, id) && (q.id in e.candidates ==> full)
    ensures !Awaiting(TakeQuote(e, s, q, full), id) && !Awaiting(DropQuote(e, q.id), id)
  {
    hide Remember, Features, BenchmarkSnapshot;
  }

  lemma {:induction false} QuotesLeaveNoneAwaiting(
      e: Engine, s: Session, quotes: seq<Quote>, benchmarks: bool, id: InstrumentId)
    requires !Awaiting(e, id)
    ensures !Awaiting(AddQuotes(e, s, quotes, benchmarks).engine, id)
    decreases |quotes|
  {
    hide Awaiting, TakeQuote, DropQuote;
    if quotes != [] && Known(e.instruments, quotes[0].id, quotes[0].symbol) {
      var q := quotes[0];
      var full := benchmarks || q.id in e.candidates;
      QuoteLeavesNoneAwaiting(e, s, q, full, id);
      if !InvalidQuoteValues(q) {
        QuotesLeaveNoneAwaiting(TakeQuote(e, s, q, full), s, quotes[1..], benchmarks, id);
      } else if e.instruments[q.id].role.Benchmark? {
        QuotesLeaveNoneAwaiting(DropQuote(e, q.id), s, quotes[1..], benchmarks, id);
      }
    }
  }
}
