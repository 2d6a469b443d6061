/** The indexed, cached engine answers every run as the reference engine does. */
module FeatureRefinement {
  import opened Clock
  import opened Candles
  import opened FeatureState
  import opened FeatureEngines
  import opened FeatureIndex
  import opened FeatureReference

  // ------------------------------------------------------------------ the historical index

  ghost predicate PastKeyed(m: map<CandleKey, Candle>) {
    Keyed(m) && forall k :: k in m ==> k.timeframe.OneMinute?
  }

  /** `h` lists, date by date, exactly the records `m` holds for the instrument. */
  ghost predicate HistoryIndexes(h: History, m: map<CandleKey, Candle>, id: InstrumentId) {
    && h.Keys == Dates(m, id)
    && forall date :: date in h ==> Indexes(h[date], Dated(m, id, date))
  }

  lemma HistoryIsSorted(h: History, r: Reference, id: InstrumentId)
    requires HistoryIndexes(h, r.completed, id)
    ensures h == PastSessions(r, id)
  {
    hide Sorted, Dated, Indexes;
    forall date | date in h ensures h[date] == Sorted(Dated(r.completed, id, date)) {
      IndexIsSorted(h[date], Dated(r.completed, id, date));
    }
  }

  lemma DatedAfterPut(m: map<CandleKey, Candle>, c: Candle, id: InstrumentId, date: int, d: Candle)
    requires PastKeyed(m) && c.timeframe.OneMinute?
    ensures d in Dated(m[KeyOf(c) := c], id, date) <==>
            if id == c.id && date == UtcDate(c.start)
            then d == c || (d in Dated(m, id, date) && d.start != c.start)
            else d in Dated(m, id, date)
  {
    hide UtcDate;
    var n := m[KeyOf(c) := c];
    if d in Dated(m, id, date) {
      assert KeyOf(d) in m && m[KeyOf(d)] == d;
      if KeyOf(d) != KeyOf(c) { assert n[KeyOf(d)] == d; }
    }
    if d in Dated(n, id, date) {
      var k :| k in n && k.id == id && UtcDate(k.start) == date && n[k] == d;
      if k != KeyOf(c) { assert m[k] == d; }
    }
    assert n[KeyOf(c)] == c;
  }

  lemma DatesAfterPut(m: map<CandleKey, Candle>, c: Candle, id: InstrumentId)
    ensures Dates(m[KeyOf(c) := c], id) == Dates(m, id) + (if id == c.id then {UtcDate(c.start)} else {})
  {
    hide UtcDate;
    var n := m[KeyOf(c) := c];
    forall date | date in Dates(m, id) ensures date in Dates(n, id) {
      var k :| k in m && k.id == id && UtcDate(k.start) == date;
      assert k in n;
    }
    assert KeyOf(c) in n;
  }

  lemma NoDates(m: map<CandleKey, Candle>, id: InstrumentId, date: int)
    requires date !in Dates(m, id)
    ensures Dated(m, id, date) == {}
  {
    hide UtcDate;
    if d :| d in Dated(m, id, date) {
      assert false;
    }
  }

  lemma PutHistoryIndexes(h: History, m: map<CandleKey, Candle>, c: Candle)
    requires HistoryIndexes(h, m, c.id) && PastKeyed(m) && c.timeframe.OneMinute?
    ensures HistoryIndexes(PutHistory(h, c), m[KeyOf(c) := c], c.id)
  {
    hide UtcDate, Put, Dated, Dates, Indexes;
    var n := m[KeyOf(c) := c];
    var next := PutHistory(h, c);
    DatesAfterPut(m, c, c.id);
    forall date | date in next ensures Indexes(next[date], Dated(n, c.id, date)) {
      forall d { DatedAfterPut(m, c, c.id, date, d); }
      if date == UtcDate(c.start) {
        if date !in h {
          NoDates(m, c.id, date);
          EmptyIndex();
        }
        PutIndexes(if date in h then h[date] else [], Dated(m, c.id, date), c, Dated(n, c.id, date));
      } else {
        assert Dated(n, c.id, date) == Dated(m, c.id, date);
      }
    }
  }

  lemma EmptyIndex()
    ensures Indexes([], {})
  {
  }

  lemma OtherHistoryIndexes(h: History, m: map<CandleKey, Candle>, c: Candle, id: InstrumentId)
    requires HistoryIndexes(h, m, id) && PastKeyed(m) && c.timeframe.OneMinute? && id != c.id
    ensures HistoryIndexes(h, m[KeyOf(c) := c], id)
  {
    hide UtcDate, Dated, Dates, Indexes;
    DatesAfterPut(m, c, id);
    forall date | date in h ensures Indexes(h[date], Dated(m[KeyOf(c) := c], id, date)) {
      forall d { DatedAfterPut(m, c, id, date, d); }
      assert Dated(m[KeyOf(c) := c], id, date) == Dated(m, id, date);
    }
  }

  ghost predicate HistoryIndexed(e: Engine, m: map<CandleKey, Candle>) {
    PastKeyed(m) && forall id :: HistoryIndexes(HistoryOf(e, id), m, id)
  }

  // ------------------------------------------------------------------ tracking the reference

  /** The engine and the reference hold the same inputs, and the engine's indexes are in order. */
  ghost predicate Tracks(e: Engine, r: Reference) {
    && e.session == r.session && e.instruments == r.instruments && e.candidates == r.candidates
    && e.candles == r.candles && e.quotes == r.quotes && e.unavailable == r.unavailable
    && SeriesIndexed(e) && HistoryIndexed(e, r.completed)
  }

  lemma SeriesAgree(e: Engine, r: Reference, id: InstrumentId, tf: Timeframe)
    requires Tracks(e, r)
    ensures SeriesOf(e, id, tf) == Series(r, id, tf)
  {
    hide Sorted, Entries, SeriesOf, HistoryIndexed;
    assert Indexes(SeriesOf(e, id, tf), Entries(e.candles, id, tf));
    IndexIsSorted(SeriesOf(e, id, tf), Entries(r.candles, id, tf));
  }

  /** What the engine would compute afresh is what the reference computes from its dictionary. */
  lemma FreshAgree(e: Engine, r: Reference, s: Session, id: InstrumentId, t: Time)
    requires Tracks(e, r)
    ensures FreshFeatures(e, s, id, t) == FullFeatures(r, s, id, t)
    ensures FreshContext(e, s, id, t) == FullContext(r, s, id, t)
  {
    hide Derive, DeriveContext, SeriesOf, HistoryOf, Series, PastSessions, SeriesIndexed, HistoryIndexes;
    SeriesAgree(e, r, id, OneMinute);
    SeriesAgree(e, r, id, FiveMinutes);
    SeriesAgree(e, r, id, OneDay);
    HistoryIsSorted(HistoryOf(e, id), r, id);
  }

  lemma AddCandleTracks(e: Engine, r: Reference, s: Session, c: Candle)
    requires Tracks(e, r)
    ensures Tracks(AddCandle(e, s, c), Enter(r, s, c))
  {
    hide SeriesIndexed, HistoryIndexes, PutHistory, Put, PastKeyed;
    var next, after := AddCandle(e, s, c), Enter(r, s, c);
    AddCandleIndexed(e, s, c);
    forall id ensures HistoryIndexes(HistoryOf(next, id), after.completed, id) {
      assert HistoryIndexes(HistoryOf(e, id), r.completed, id);
      AddCandleHistory(e, s, c, id);
      if Historical(s, c) {
        if id == c.id {
          PutHistoryIndexes(HistoryOf(e, id), r.completed, c);
        } else {
          OtherHistoryIndexes(HistoryOf(e, id), r.completed, c, id);
        }
      }
    }
    PutPastKeyed(r.completed, s, c);
  }

  lemma PutPastKeyed(m: map<CandleKey, Candle>, s: Session, c: Candle)
    requires PastKeyed(m)
    ensures Historical(s, c) ==> PastKeyed(m[KeyOf(c) := c])
  {
  }

  lemma {:induction false} AddCandlesTrack(e: Engine, r: Reference, s: Session, batch: seq<Candle>)
    requires Tracks(e, r)
    ensures Tracks(AddCandles(e, s, batch).0, EnterAll(r, s, batch).0)
    ensures AddCandles(e, s, batch).1 == EnterAll(r, s, batch).1
    ensures AddCandles(e, s, batch).0.snapshots == e.snapshots
    ensures EnterAll(r, s, batch).0.snapshots == r.snapshots
    decreases |batch|
  {
    hide SeriesIndexed, HistoryIndexed, CandleError, Put, PutHistory;
    if batch != [] && CandleError(e.instruments, batch[0]).None? {
      AddCandleTracks(e, r, s, batch[0]);
      AddCandlesTrack(AddCandle(e, s, batch[0]), Enter(r, s, batch[0]), s, batch[1..]);
    }
  }

  /** Nothing but the dictionary, the indexes and the common inputs matters to tracking. */
  lemma SameTracks(e: Engine, r: Reference, f: Engine, q: Reference)
    requires Tracks(e, r)
    requires f.candles == e.candles && f.series == e.series && f.history == e.history
    requires q.candles == r.candles && q.completed == r.completed
    requires f.session == q.session && f.instruments == q.instruments && f.candidates == q.candidates
    requires f.quotes == q.quotes && f.unavailable == q.unavailable
    ensures Tracks(f, q)
  {
    hide SeriesIndexed, HistoryIndexes;
    SameIndex(e, f);
    forall id ensures HistoryIndexes(HistoryOf(f, id), q.completed, id) {
      assert HistoryOf(f, id) == HistoryOf(e, id);
    }
  }

  lemma ForgetTracks(e: Engine, r: Reference, ids: set<InstrumentId>)
    requires Tracks(e, r)
    ensures Tracks(Forget(e, ids), Leave(r, ids))
  {
    hide SeriesIndexed, UtcDate;
    ForgetIndexed(e, ids);
    var next, m := Forget(e, ids), WithoutCandles(r.completed, ids);
    forall id ensures HistoryIndexes(HistoryOf(next, id), m, id) {
      if id in ids {
        assert Dates(m, id) == {};
      } else {
        LeavePast(r.completed, ids, id);
        assert HistoryIndexes(HistoryOf(e, id), r.completed, id);
      }
    }
  }

  lemma LeavePast(m: map<CandleKey, Candle>, ids: set<InstrumentId>, id: InstrumentId)
    requires id !in ids
    ensures Dates(WithoutCandles(m, ids), id) == Dates(m, id)
    ensures forall date :: Dated(WithoutCandles(m, ids), id, date) == Dated(m, id, date)
  {
    hide UtcDate;
    var n := WithoutCandles(m, ids);
    forall date ensures Dated(n, id, date) == Dated(m, id, date) {
      forall d | d in Dated(m, id, date) ensures d in Dated(n, id, date) {
        var k :| k in m && k.id == id && UtcDate(k.start) == date && m[k] == d;
        assert k in n && n[k] == d;
      }
    }
    forall date | date in Dates(m, id) ensures date in Dates(n, id) {
      var k :| k in m && k.id == id && UtcDate(k.start) == date;
      assert k in n;
    }
  }

  lemma BlankTracks(e: Engine, r: Reference)
    requires e.session == r.session && e.instruments == r.instruments && e.candidates == r.candidates
    requires e == EMPTY.(session := e.session, instruments := e.instruments, candidates := e.candidates)
    requires r == BLANK.(session := r.session, instruments := r.instruments, candidates := r.candidates)
    ensures Tracks(e, r)
  {
    EmptyIndexed(e);
    forall id ensures HistoryIndexes(HistoryOf(e, id), r.completed, id) {
      assert Dates(r.completed, id) == {};
    }
  }
}
