/** Cache coherence. Both caches are keyed by series lengths and the quote's minute. A series only
    grows unless its instrument is dropped, a replacement drops the cache, and within a minute nothing
    changes: so a matching key means that nothing was inserted or replaced since. */
module FeatureCaches {
  import opened Clock
  import opened Candles
  import opened FeatureState
  import opened FeatureEngines
  import opened FeatureIndex
  import opened FeatureMinutes
  import opened FeatureReference
  import opened FeatureRefinement

  /** No counted series was longer than it is now. */
  ghost predicate Counted(key: CacheKey, e: Engine, id: InstrumentId) {
    && key.oneMinute <= |SeriesOf(e, id, OneMinute)|
    && key.fiveMinutes <= |SeriesOf(e, id, FiveMinutes)|
    && key.daily <= |SeriesOf(e, id, OneDay)|
  }

  /** A candle was inserted since: the key cannot be asked for again. */
  ghost predicate Outgrown(key: CacheKey, e: Engine, id: InstrumentId) {
    || key.oneMinute < |SeriesOf(e, id, OneMinute)|
    || key.fiveMinutes < |SeriesOf(e, id, FiveMinutes)|
    || key.daily < |SeriesOf(e, id, OneDay)|
  }

  ghost predicate FreshInMinute(derived: Derived, minute: Time, e: Engine, s: Session, id: InstrumentId) {
    forall t :: MinuteOf(t) == minute ==> derived == FreshFeatures(e, s, id, t)
  }

  ghost predicate ContextFreshInMinute(base: ContextBase, minute: Time, e: Engine, s: Session, id: InstrumentId) {
    forall t :: MinuteOf(t) == minute ==> base == FreshContext(e, s, id, t)
  }

  ghost predicate CoherentFeatures(e: Engine, s: Session, id: InstrumentId, cached: CachedFeatures) {
    Counted(cached.key, e, id) &&
    (Outgrown(cached.key, e, id) || FreshInMinute(cached.derived, cached.key.minute, e, s, id))
  }

  ghost predicate CoherentContext(e: Engine, s: Session, id: InstrumentId, cached: CachedContext) {
    Counted(cached.key, e, id) &&
    (Outgrown(cached.key, e, id) || ContextFreshInMinute(cached.base, cached.key.minute, e, s, id))
  }

  /** The instrument's entry, if it has one, is coherent. */
  ghost predicate SoundFeatures(e: Engine, s: Session, id: InstrumentId) {
    id in e.featureCache ==> CoherentFeatures(e, s, id, e.featureCache[id])
  }

  ghost predicate SoundContext(e: Engine, s: Session, id: InstrumentId) {
    id in e.contextCache ==> CoherentContext(e, s, id, e.contextCache[id])
  }

  ghost predicate Coherent(e: Engine, s: Session) {
    && (forall id :: id in e.featureCache ==> CoherentFeatures(e, s, id, e.featureCache[id]))
    && (forall id :: id in e.contextCache ==> CoherentContext(e, s, id, e.contextCache[id]))
  }

  lemma SoundHitIsFresh(e: Engine, s: Session, id: InstrumentId, t: Time)
    ensures SoundFeatures(e, s, id) ==> Features(e, s, id, t) == FreshFeatures(e, s, id, t)
    ensures SoundContext(e, s, id) ==> Context(e, s, id, t) == FreshContext(e, s, id, t)
  {
    hide FreshFeatures, FreshContext;
    var key := CacheKeyOf(e, s, id, t);
    if SoundFeatures(e, s, id) && id in e.featureCache && e.featureCache[id].key == key {
      assert FreshInMinute(e.featureCache[id].derived, key.minute, e, s, id);
    }
    if SoundContext(e, s, id) && id in e.contextCache && e.contextCache[id].key == key {
      assert ContextFreshInMinute(e.contextCache[id].base, key.minute, e, s, id);
    }
  }

  /** Whatever a coherent engine takes from a cache equals a fresh computation. */
  lemma HitIsFresh(e: Engine, s: Session, id: InstrumentId, t: Time)
    requires Coherent(e, s)
    ensures Features(e, s, id, t) == FreshFeatures(e, s, id, t)
    ensures Context(e, s, id, t) == FreshContext(e, s, id, t)
  {
    hide Features, Context, FreshFeatures, FreshContext, CoherentFeatures, CoherentContext;
    SoundHitIsFresh(e, s, id, t);
  }

  // ------------------------------------------------------------------ alignment

  ghost predicate AlignedStore(m: map<CandleKey, Candle>) { forall k :: k in m ==> AlignedCandle(m[k]) }

  /** The instrument's candles are on whole minutes. */
  ghost predicate OnMinutes(e: Engine, id: InstrumentId) {
    (forall tf :: AlignedCandles(SeriesOf(e, id, tf))) && AlignedHistory(HistoryOf(e, id))
  }

  lemma StoreAligned(e: Engine, r: Reference, id: InstrumentId)
    requires Tracks(e, r) && AlignedStore(r.candles) && AlignedStore(r.completed)
    ensures OnMinutes(e, id)
  {
    hide SeriesOf, HistoryOf, Increasing, AlignedCandle, UtcDate;
    forall tf ensures AlignedCandles(SeriesOf(e, id, tf)) {
      SeriesAligned(SeriesOf(e, id, tf), e.candles, id, tf);
    }
    assert HistoryIndexes(HistoryOf(e, id), r.completed, id);
    forall date | date in HistoryOf(e, id) ensures AlignedCandles(HistoryOf(e, id)[date]) {
      DateAligned(HistoryOf(e, id)[date], r.completed, id, date);
    }
  }

  lemma SeriesAligned(cs: seq<Candle>, m: map<CandleKey, Candle>, id: InstrumentId, tf: Timeframe)
    requires Indexes(cs, Entries(m, id, tf)) && AlignedStore(m)
    ensures AlignedCandles(cs)
  {
    hide AlignedCandle;
    forall i | 0 <= i < |cs| ensures AlignedCandle(cs[i]) {
      assert cs[i] in Entries(m, id, tf);
    }
  }

  lemma DateAligned(cs: seq<Candle>, m: map<CandleKey, Candle>, id: InstrumentId, date: int)
    requires Indexes(cs, Dated(m, id, date)) && AlignedStore(m)
    ensures AlignedCandles(cs)
  {
    hide AlignedCandle, UtcDate;
    forall i | 0 <= i < |cs| ensures AlignedCandle(cs[i]) {
      assert cs[i] in Dated(m, id, date);
    }
  }

  ghost predicate Agrees(e: Engine, r: Reference) {
    && Tracks(e, r) && e.snapshots == r.snapshots
    && AlignedStore(r.candles) && AlignedStore(r.completed)
    && (e.session.Some? ==> AlignedSession(e.session.value) && Coherent(e, e.session.value))
  }

  /** What is fresh at an instant is so in its whole minute. */
  lemma FreshEntryCoherent(e: Engine, s: Session, id: InstrumentId, t: Time)
    requires OnMinutes(e, id) && AlignedSession(s)
    ensures CoherentFeatures(e, s, id, CachedFeatures(CacheKeyOf(e, s, id, t), FreshFeatures(e, s, id, t)))
    ensures CoherentContext(e, s, id, CachedContext(CacheKeyOf(e, s, id, t), FreshContext(e, s, id, t)))
  {
    hide Derive, DeriveContext;
    forall u | MinuteOf(u) == MinuteOf(t)
      ensures FreshFeatures(e, s, id, u) == FreshFeatures(e, s, id, t)
      ensures FreshContext(e, s, id, u) == FreshContext(e, s, id, t) {
      DeriveSameMinute(s, SeriesOf(e, id, OneMinute), SeriesOf(e, id, FiveMinutes), SeriesOf(e, id, OneDay),
                       HistoryOf(e, id), u, t);
      DeriveContextSameMinute(s, SeriesOf(e, id, FiveMinutes), SeriesOf(e, id, OneDay), u, t);
    }
  }

  /** A new cache entry is coherent: it is fresh at its instant, hence in its whole minute. */
  lemma RememberCoherent(e: Engine, r: Reference, id: InstrumentId, t: Time)
    requires Agrees(e, r) && e.session.Some?
    ensures var s := e.session.value;
            && CoherentFeatures(e, s, id, CachedFeatures(CacheKeyOf(e, s, id, t), Features(e, s, id, t)))
            && CoherentContext(e, s, id, CachedContext(CacheKeyOf(e, s, id, t), Context(e, s, id, t)))
  {
    hide FreshFeatures, FreshContext, Features, Context, CoherentFeatures, CoherentContext, CacheKeyOf, Tracks,
         AlignedStore;
    HitIsFresh(e, e.session.value, id, t);
    StoreAligned(e, r, id);
    FreshEntryCoherent(e, e.session.value, id, t);
  }

  // ------------------------------------------------------------------ what keeps the caches coherent

  /** The candles of this instrument are indexed alike in both states. */
  ghost predicate SameCandles(e: Engine, f: Engine, id: InstrumentId) {
    && (forall tf :: SeriesOf(e, id, tf) == SeriesOf(f, id, tf))
    && HistoryOf(e, id) == HistoryOf(f, id)
  }

  lemma CoherentFrame(e: Engine, f: Engine, s: Session, id: InstrumentId)
    requires SameCandles(e, f, id)
    ensures forall cached :: CoherentFeatures(e, s, id, cached) == CoherentFeatures(f, s, id, cached)
    ensures forall cached :: CoherentContext(e, s, id, cached) == CoherentContext(f, s, id, cached)
  {
    hide Derive, DeriveContext, SeriesOf, HistoryOf;
    assert forall t :: FreshFeatures(e, s, id, t) == FreshFeatures(f, s, id, t);
    assert forall t :: FreshContext(e, s, id, t) == FreshContext(f, s, id, t);
  }

  /** Inserting outgrows every cached key of the instrument; replacing drops its entries. */
  lemma AddCandleCoherent(e: Engine, s: Session, c: Candle)
    requires Coherent(e, s) && SeriesIndexed(e)
    ensures Coherent(AddCandle(e, s, c), s)
  {
    hide SeriesIndexed, FreshInMinute, ContextFreshInMinute, SeriesOf;
    var f := AddCandle(e, s, c);
    forall id | id in f.featureCache ensures CoherentFeatures(f, s, id, f.featureCache[id]) {
      AddCandleCacheEntry(e, s, c, id);
    }
    forall id | id in f.contextCache ensures CoherentContext(f, s, id, f.contextCache[id]) {
      AddCandleCacheEntry(e, s, c, id);
    }
  }

  /** No cached series of the instrument was longer than it is now. */
  ghost predicate CountedEntries(e: Engine, id: InstrumentId) {
    && (id in e.featureCache ==> Counted(e.featureCache[id].key, e, id))
    && (id in e.contextCache ==> Counted(e.contextCache[id].key, e, id))
  }

  /** Of whatever session an entry was: a candle of its instrument makes it coherent. */
  lemma AddCandleCacheEntry(e: Engine, s: Session, c: Candle, id: InstrumentId)
    requires SeriesIndexed(e) && CountedEntries(e, id)
    ensures CountedEntries(AddCandle(e, s, c), id)
    ensures id == c.id || SoundFeatures(e, s, id) ==> SoundFeatures(AddCandle(e, s, c), s, id)
    ensures id == c.id || SoundContext(e, s, id) ==> SoundContext(AddCandle(e, s, c), s, id)
  {
    hide FreshInMinute, ContextFreshInMinute, Entries, Put, PutHistory;
    var f := AddCandle(e, s, c);
    forall tf { AddCandleSeries(e, s, c, id, tf); }
    AddCandleHistory(e, s, c, id);
    if id != c.id {
      CoherentFrame(e, f, s, id);
    } else {
      assert Indexes(SeriesOf(e, c.id, c.timeframe), Entries(e.candles, c.id, c.timeframe));
      PutIncreasing(SeriesOf(e, c.id, c.timeframe), c);
    }
  }

  lemma {:induction false} AddCandlesCoherent(e: Engine, s: Session, batch: seq<Candle>)
    requires Coherent(e, s) && SeriesIndexed(e)
    ensures Coherent(AddCandles(e, s, batch).0, s)
    decreases |batch|
  {
    hide Coherent, SeriesIndexed, AddCandle, CandleError;
    if batch != [] && CandleError(e.instruments, batch[0]).None? {
      AddCandleCoherent(e, s, batch[0]);
      AddCandleIndexed(e, s, batch[0]);
      AddCandlesCoherent(AddCandle(e, s, batch[0]), s, batch[1..]);
    }
  }
}
