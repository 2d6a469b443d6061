/** The evidence of a discovery evaluation: exactly when it is without reasons, and then what every figure of it is,
    said of the calendar, the bars, the quote and the metadata alone (services/scanner/app/discovery.py:84-279). */
module DiscoveryFigures {
  import opened Lists
  import Clock
  import opened Indicators
  import IndicatorLaws
  import opened Discovery
  import opened DiscoveryContract
  import opened DiscoveryReasons
  import opened DiscoveryVerdicts

  // ------------------------------------------------------------------ the prior sessions

  predicate Earlier(v: Input, s: CalendarSession) { s in v.calendar.sessions && s.tradingDate < v.tradingDate }

  lemma {:induction false} FilterAscends(s: seq<CalendarSession>, p: CalendarSession -> bool)
    requires Ascending(s, OpenOf)
    ensures Ascending(Filter(s, p), OpenOf)
  {
    if s != [] {
      FilterAscends(s[1..], p);
      var rest := Filter(s[1..], p);
      forall j | 0 <= j < |rest| ensures OpenOf(s[0]) <= OpenOf(rest[j]) {
        assert rest[j] in s[1..];
      }
    }
  }

  lemma SortedHasAll(v: Input)
    ensures Ascending(SortedSessions(v), OpenOf)
    ensures forall s :: s in SortedSessions(v) <==> s in v.calendar.sessions
  {
    SortByKeySorts(v.calendar.sessions, OpenOf);
    forall s ensures s in SortedSessions(v) <==> s in v.calendar.sessions {
      assert s in SortedSessions(v) <==> s in multiset(SortedSessions(v));
      assert s in v.calendar.sessions <==> s in multiset(v.calendar.sessions);
    }
  }

  /** The prior sessions are the latest of those dated before the trading date, ninety-one at most, in order. */
  lemma PriorExactly(v: Input)
    ensures Ascending(Prior(v), OpenOf) && |Prior(v)| <= 91
    ensures forall s :: s in Prior(v) ==> Earlier(v, s)
    ensures forall s :: Earlier(v, s) && s !in Prior(v) ==> |Prior(v)| == 91
    ensures forall s, p :: Earlier(v, s) && s !in Prior(v) && p in Prior(v) ==> s.open <= p.open
  {
    hide SortedSessions;
    SortedHasAll(v);
    var earlier := Filter(SortedSessions(v), (s: CalendarSession) => s.tradingDate < v.tradingDate);
    FilterAscends(SortedSessions(v), (s: CalendarSession) => s.tradingDate < v.tradingDate);
    LatestOfAscending(earlier);
    assert Prior(v) == LastOf(earlier, 91);
  }

  lemma BeforeCut(s: seq<CalendarSession>, cut: nat, x: CalendarSession)
    requires cut <= |s| && x in s && x !in s[cut..]
    ensures exists i :: 0 <= i < cut && s[i] == x
  {
    assert s == s[..cut] + s[cut..];
  }

  lemma LatestOfAscending(s: seq<CalendarSession>)
    requires Ascending(s, OpenOf)
    ensures var last := LastOf(s, 91);
            && Ascending(last, OpenOf) && |last| <= 91 && (forall x :: x in last ==> x in s)
            && (forall x :: x in s && x !in last ==> |last| == 91 && forall p :: p in last ==> x.open <= p.open)
  {
    var last := LastOf(s, 91);
    if |s| > 91 {
      var cut := |s| - 91;
      forall x, p | x in s && x !in last && p in last ensures x.open <= p.open {
        BeforeCut(s, cut, x);
        var i :| 0 <= i < cut && s[i] == x;
        var j :| 0 <= j < 91 && last[j] == p;
        assert OpenOf(s[i]) <= OpenOf(s[cut + j]);
      }
    }
  }

  // ------------------------------------------------------------------ usable bars

  /** Complete, observed after its end and before the evaluation, possible, and of the source and revision in use. */
  predicate Usable(v: Input, bar: HistoryValues, end: Micros) {
    && bar.complete && end <= bar.observedAt <= v.evaluationAt && Possible(bar)
    && bar.source == v.identity.source && bar.adjustmentRevision == v.adjustment.revision
    && v.adjustment.verified && v.adjustment.convention != UnknownConvention && !v.adjustment.unresolvedAction
  }

  lemma UsableExactly(v: Input, bar: HistoryValues, end: Micros)
    ensures BarReasons(v, bar, end) == [] <==> Usable(v, bar, end)
  {
    var reasons := BarReasons(v, bar, end);
    hide BarReasons;
    if reasons != [] { BarReasonsExactly(v, bar, end, reasons[0]); }
    BarReasonsExactly(v, bar, end, InvalidBar);
    BarReasonsExactly(v, bar, end, FutureObservation);
    BarReasonsExactly(v, bar, end, AdjustmentUnverified);
  }

  /** The only daily bar of the session's date. */
  ghost predicate OnlyDaily(bars: seq<DailyBar>, date: int, bar: HistoryValues) {
    exists i :: 0 <= i < |bars| && bars[i] == DailyBar(date, bar) &&
                forall j :: 0 <= j < |bars| && j != i ==> bars[j].tradingDate != date
  }

  ghost predicate DailyFound(v: Input, s: CalendarSession, bar: HistoryValues) {
    OnlyDaily(v.dailyBars, s.tradingDate, bar) && Usable(v, bar, s.close)
  }

  lemma OnlyDailyExactly(bars: seq<DailyBar>, date: int, bar: HistoryValues)
    ensures DailyOn(bars, date) == [DailyBar(date, bar)] <==> OnlyDaily(bars, date, bar)
  {
    var dated := (b: DailyBar) => b.tradingDate == date;
    if DailyOn(bars, date) == [DailyBar(date, bar)] {
      SingleSource(bars, dated, DailyBar(date, bar));
    }
    if OnlyDaily(bars, date, bar) {
      var i :| 0 <= i < |bars| && bars[i] == DailyBar(date, bar) &&
               forall j :: 0 <= j < |bars| && j != i ==> bars[j].tradingDate != date;
      FilterSingle(bars, i, dated);
    }
  }

  /** A session contributes its only usable bar, without a reason, or nothing. */
  lemma DailyStepExactly(v: Input, s: CalendarSession, bar: HistoryValues)
    ensures var step := DailyStep(v, s, DailyOn(v.dailyBars, s.tradingDate));
            && |step.accepted| <= 1
            && (step.accepted == [bar] <==> DailyFound(v, s, bar))
            && (step.accepted != [] ==> step.reasons == [])
  {
    var bars := DailyOn(v.dailyBars, s.tradingDate);
    OnlyDailyExactly(v.dailyBars, s.tradingDate, bar);
    UsableExactly(v, bar, s.close);
    hide BarReasons, OnlyDaily, DailyOn, Possible;
    DatedAlike(v.dailyBars, s.tradingDate);
    if |bars| == 1 {
      assert bars == [bars[0]] && bars[0] == DailyBar(s.tradingDate, bars[0].values);
    }
  }

  lemma DatedAlike(bars: seq<DailyBar>, date: int)
    ensures forall i :: 0 <= i < |DailyOn(bars, date)| ==> DailyOn(bars, date)[i].tradingDate == date
  {
    forall i | 0 <= i < |DailyOn(bars, date)| ensures DailyOn(bars, date)[i].tradingDate == date {
      assert DailyOn(bars, date)[i] in DailyOn(bars, date);
    }
  }

  const NO_BAR: HistoryValues := HistoryValues(0.0, 0.0, 0.0, 0.0, 0.0, 0, true, Questrade, "")

  ghost predicate HistoryFound(v: Input, sessions: seq<CalendarSession>, h: seq<HistoryValues>) {
    |h| == |sessions| && forall i :: 0 <= i < |h| ==> DailyFound(v, sessions[i], h[i])
  }

  lemma {:induction false} DailyScanFinds(v: Input, sessions: seq<CalendarSession>)
    ensures var scan := DailyScan(v, sessions);
            && |scan.accepted| <= |sessions|
            && (|scan.accepted| == |sessions| ==> scan.reasons == [] && HistoryFound(v, sessions, scan.accepted))
    decreases |sessions|
  {
    hide DailyStep, DailyOn, DailyFound;
    if sessions != [] {
      var n := |sessions| - 1;
      DailyScanFinds(v, sessions[..n]);
      var step := DailyStep(v, sessions[n], DailyOn(v.dailyBars, sessions[n].tradingDate));
      DailyStepExactly(v, sessions[n], if step.accepted == [] then NO_BAR else step.accepted[0]);
    }
  }

  lemma {:induction false} DailyScanIs(v: Input, sessions: seq<CalendarSession>, h: seq<HistoryValues>)
    requires HistoryFound(v, sessions, h)
    ensures DailyScan(v, sessions).accepted == h
    decreases |sessions|
  {
    hide DailyStep, DailyOn, DailyFound;
    if sessions != [] {
      var n := |sessions| - 1;
      DailyScanIs(v, sessions[..n], h[..n]);
      DailyStepExactly(v, sessions[n], h[n]);
      assert h == h[..n] + [h[n]];
    }
  }

  /** The scan is complete exactly when every session has its bar, and then it holds these bars and no reason. */
  lemma DailyScanExactly(v: Input, sessions: seq<CalendarSession>, h: seq<HistoryValues>)
    ensures var scan := DailyScan(v, sessions);
            && |scan.accepted| <= |sessions|
            && (|scan.accepted| == |sessions| ==> scan.reasons == [] && HistoryFound(v, sessions, scan.accepted))
            && (HistoryFound(v, sessions, h) ==> scan.accepted == h)
  {
    hide DailyScan, HistoryFound;
    DailyScanFinds(v, sessions);
    if HistoryFound(v, sessions, h) { DailyScanIs(v, sessions, h); }
  }

  /** The only slot bar with that start, which ends there too. */
  ghost predicate OnlySlot(bars: seq<SlotBar>, start: Micros, end: Micros, bar: HistoryValues) {
    exists i :: 0 <= i < |bars| && bars[i] == SlotBar(start, end, bar) &&
                forall j :: 0 <= j < |bars| && j != i ==> bars[j].start != start
  }

  /** The five minutes that end at this offset from the session's open. */
  ghost predicate SlotFound(v: Input, s: CalendarSession, offset: int, bar: HistoryValues) {
    && s.open + offset <= s.close
    && OnlySlot(v.slotBars, s.open + offset - FIVE_MINUTES, s.open + offset, bar)
    && Usable(v, bar, s.open + offset)
  }

  lemma OnlySlotExactly(bars: seq<SlotBar>, start: Micros, end: Micros, bar: HistoryValues)
    ensures SlotsAt(bars, start) == [SlotBar(start, end, bar)] <==> OnlySlot(bars, start, end, bar)
  {
    var starting := (b: SlotBar) => b.start == start;
    if SlotsAt(bars, start) == [SlotBar(start, end, bar)] {
      SingleSource(bars, starting, SlotBar(start, end, bar));
    }
    if OnlySlot(bars, start, end, bar) {
      var i :| 0 <= i < |bars| && bars[i] == SlotBar(start, end, bar) &&
               forall j :: 0 <= j < |bars| && j != i ==> bars[j].start != start;
      FilterSingle(bars, i, starting);
    }
  }

  lemma StartingAlike(bars: seq<SlotBar>, start: Micros)
    ensures forall i :: 0 <= i < |SlotsAt(bars, start)| ==> SlotsAt(bars, start)[i].start == start
  {
    forall i | 0 <= i < |SlotsAt(bars, start)| ensures SlotsAt(bars, start)[i].start == start {
      assert SlotsAt(bars, start)[i] in SlotsAt(bars, start);
    }
  }

  lemma SlotStepExactly(v: Input, s: CalendarSession, offset: int, bar: HistoryValues)
    ensures var end := s.open + offset;
            var step := SlotStep(v, s, end, SlotsAt(v.slotBars, end - FIVE_MINUTES));
            && |step.accepted| <= 1
            && (step.accepted == [bar] <==> SlotFound(v, s, offset, bar))
            && (step.accepted != [] ==> step.reasons == [])
  {
    var end := s.open + offset;
    var bars := SlotsAt(v.slotBars, end - FIVE_MINUTES);
    OnlySlotExactly(v.slotBars, end - FIVE_MINUTES, end, bar);
    UsableExactly(v, bar, end);
    hide BarReasons, OnlySlot, Usable, SlotsAt;
    StartingAlike(v.slotBars, end - FIVE_MINUTES);
    if |bars| == 1 {
      assert bars == [bars[0]] && bars[0] == SlotBar(end - FIVE_MINUTES, bars[0].end, bars[0].values);
    }
  }

  ghost predicate SlotsFound(v: Input, sessions: seq<CalendarSession>, offset: int, h: seq<HistoryValues>) {
    |h| == |sessions| && forall i :: 0 <= i < |h| ==> SlotFound(v, sessions[i], offset, h[i])
  }

  lemma {:induction false} SlotScanFinds(v: Input, sessions: seq<CalendarSession>, offset: int)
    ensures var scan := SlotScan(v, sessions, offset);
            && |scan.accepted| <= |sessions|
            && (|scan.accepted| == |sessions| ==> scan.reasons == [] && SlotsFound(v, sessions, offset, scan.accepted))
    decreases |sessions|
  {
    hide SlotStep, SlotsAt, SlotFound;
    if sessions != [] {
      var n := |sessions| - 1;
      SlotScanFinds(v, sessions[..n], offset);
      var end := sessions[n].open + offset;
      var step := SlotStep(v, sessions[n], end, SlotsAt(v.slotBars, end - FIVE_MINUTES));
      SlotStepExactly(v, sessions[n], offset, if step.accepted == [] then NO_BAR else step.accepted[0]);
    }
  }

  lemma {:induction false} SlotScanIs(v: Input, sessions: seq<CalendarSession>, offset: int, h: seq<HistoryValues>)
    requires SlotsFound(v, sessions, offset, h)
    ensures SlotScan(v, sessions, offset).accepted == h
    decreases |sessions|
  {
    hide SlotStep, SlotsAt, SlotFound;
    if sessions != [] {
      var n := |sessions| - 1;
      SlotScanIs(v, sessions[..n], offset, h[..n]);
      SlotStepExactly(v, sessions[n], offset, h[n]);
      assert h == h[..n] + [h[n]];
    }
  }

  lemma SlotScanExactly(v: Input, sessions: seq<CalendarSession>, offset: int, h: seq<HistoryValues>)
    ensures var scan := SlotScan(v, sessions, offset);
            && |scan.accepted| <= |sessions|
            && (|scan.accepted| == |sessions| ==> scan.reasons == [] && SlotsFound(v, sessions, offset, scan.accepted))
            && (SlotsFound(v, sessions, offset, h) ==> scan.accepted == h)
  {
    hide SlotScan, SlotsFound;
    SlotScanFinds(v, sessions, offset);
    if SlotsFound(v, sessions, offset, h) { SlotScanIs(v, sessions, offset, h); }
  }

  /** The daily history is insufficient exactly if the calendar is out of order, has fewer than ninety-one prior
      sessions, or one of these has no usable bar of its own. */
  lemma DailyInsufficientExactly(v: Input, zone: Clock.Zone, price: Option<Metric>)
    ensures InsufficientDailyHistory in HistoryPart(v, zone, price).reasons <==>
            !(CalendarOk(v, zone) && |Prior(v)| == 91 && exists h :: HistoryFound(v, Prior(v), h))
  {
    hide CalendarOk, Prior, DailyScan, DailyFound, HistoryMetrics;
    var scan := DailyScan(v, Prior(v));
    DailyScanExactly(v, Prior(v), []);
    forall h | HistoryFound(v, Prior(v), h) ensures scan.accepted == h {
      DailyScanExactly(v, Prior(v), h);
    }
    if InsufficientDailyHistory in scan.reasons { DailyScanReasons(v, Prior(v), InsufficientDailyHistory); }
    if |scan.accepted| == 91 && InsufficientDailyHistory in HistoryMetrics(scan.accepted, price).reasons {
      OnlyInvalid(scan.accepted, price, InsufficientDailyHistory);
    }
  }

  /** The ten latest prior sessions and the current one have each their only usable slot bar, and the boundary is
      right. */
  ghost predicate SlotsComplete(v: Input, zone: Clock.Zone, slots: seq<HistoryValues>) {
    && CalendarOk(v, zone) && Current(v).Some? && LatestBoundary(v, Current(v).value) && |Prior(v)| >= 10
    && SlotsFound(v, Prior(v)[|Prior(v)| - 10..] + [Current(v).value], v.completedBarEnd - Current(v).value.open, slots)
  }

  /** The slot history is insufficient exactly if it is not complete, and its baseline zero exactly if it is complete
      and the ten past slots had no volume. */
  lemma SlotsInsufficientExactly(v: Input, zone: Clock.Zone)
    ensures InsufficientSlotHistory in SlotPart(v, zone).reasons <==> forall slots :: !SlotsComplete(v, zone, slots)
    ensures ZeroSlotBaseline in SlotPart(v, zone).reasons <==>
            exists slots :: SlotsComplete(v, zone, slots) && |slots| == 11 && Sum(Map(slots[..10], VolumeOf)) <= 0.0
  {
    BoundaryExactly(v);
    hide CalendarOk, Prior, Current, BoundaryOk, LatestBoundary, SlotScan, SlotFound, FiniteDouble, LatestOf, Sum;
    if SlotsApply(v, zone) {
      var offset := v.completedBarEnd - Current(v).value.open;
      var scan := SlotScan(v, SlotSessions(v), offset);
      assert SlotSessions(v) == Prior(v)[|Prior(v)| - 10..] + [Current(v).value];
      SlotScanExactly(v, SlotSessions(v), offset, []);
      assert |scan.accepted| == 11 ==> SlotsComplete(v, zone, scan.accepted);
      forall slots | SlotsComplete(v, zone, slots) ensures scan.accepted == slots {
        SlotScanExactly(v, SlotSessions(v), offset, slots);
      }
      if InsufficientSlotHistory in scan.reasons {
        SlotScanReasons(v, SlotSessions(v), offset, InsufficientSlotHistory);
      }
      if ZeroSlotBaseline in scan.reasons { SlotScanReasons(v, SlotSessions(v), offset, ZeroSlotBaseline); }
    }
  }

  // ------------------------------------------------------------------ clean evidence

  predicate MetadataSound(v: Input) {
    && RightMarket(v) && RightExchange(v) && RightMapping(v) && RightCurrency(v)
    && v.identity.classification == CommonStockReviewed && MetadataKnown(v)
    && v.marketCap.source == v.identity.source && v.marketCap.value.Some? && 0.0 <= v.marketCap.value.value
    && v.adjustment.verified && v.adjustment.convention != UnknownConvention && !v.adjustment.unresolvedAction
  }

  ghost predicate SessionSound(v: Input, zone: Clock.Zone) {
    && CalendarOk(v, zone) && Current(v).Some?
    && Current(v).value.open <= v.evaluationAt < Current(v).value.close
    && LatestBoundary(v, Current(v).value)
  }

  /** Live, undelayed, in regular hours, of the same source, fresh and with both prices. */
  predicate QuoteSound(v: Input) {
    && v.quote.Some?
    && var q := v.quote.value;
       && q.delayed.Some? && !q.delayed.value && q.halted.Some? && !q.halted.value
       && q.source == v.identity.source && q.session == Regular
       && q.priceAt.Some? && q.priceAt.value <= q.observedAt <= v.evaluationAt && PricedWithin(v, q)
       && v.evaluationAt <= q.priceAt.value + 30 * SECOND
       && q.price.Some? && 0.0 < q.price.value && q.open.Some? && 0.0 < q.open.value
  }

  lemma IdentityClean(v: Input)
    ensures IdentityReasons(v) == [] <==>
            && RightMarket(v) && RightExchange(v) && RightMapping(v) && RightCurrency(v)
            && v.identity.classification == CommonStockReviewed && MetadataKnown(v)
  {
    IdentityReasonsListed(v);
    hide IdentityReasons, RightMarket, RightExchange, RightMapping, RightCurrency, MetadataKnown;
  }

  lemma CapClean(v: Input)
    requires v.marketCap.observedAt <= v.evaluationAt
    ensures CapPart(v).reasons == [] <==>
            && v.marketCap.source == v.identity.source && v.marketCap.value.Some? && 0.0 <= v.marketCap.value.value
            && FiniteDouble(v.marketCap.value.value)
  {
    hide FiniteDouble;
  }

  lemma MetadataExactly(v: Input)
    ensures IdentityReasons(v) == [] && AdjustmentOk(v) && CapPart(v).reasons == [] <==>
            MetadataSound(v) && FiniteDouble(v.marketCap.value.value)
  {
    IdentityClean(v);
    if v.marketCap.observedAt <= v.evaluationAt { CapClean(v); }
    hide IdentityReasons, CapPart, FiniteDouble, RightMarket, RightExchange, RightMapping, RightCurrency;
  }

  lemma SessionExactly(v: Input, zone: Clock.Zone)
    ensures SessionReasons(v, zone) == [] <==> SessionSound(v, zone)
  {
    var reasons := SessionReasons(v, zone);
    hide SessionReasons, LatestBoundary, CalendarOk, Current;
    if reasons != [] { SessionReasonsExactly(v, zone, reasons[0]); }
    SessionReasonsExactly(v, zone, CalendarUnverified);
    SessionReasonsExactly(v, zone, OutsideRegularSession);
    SessionReasonsExactly(v, zone, InvalidEvaluationBoundary);
  }

  lemma SoundHasNoFault(v: Input, x: Reason)
    requires QuoteSound(v)
    ensures !QuoteFault(v, v.quote.value, x)
  {
    hide PricedWithin;
  }

  lemma NoFaultIsSound(v: Input)
    requires v.quote.Some? && forall x :: !QuoteFault(v, v.quote.value, x)
    ensures QuoteSound(v)
  {
    hide PricedWithin;
    var q := v.quote.value;
    assert !QuoteFault(v, q, QuoteUnavailable) && !QuoteFault(v, q, QuoteDelayed) && !QuoteFault(v, q, QuoteHalted);
    assert !QuoteFault(v, q, OutsideRegularSession) && !QuoteFault(v, q, FutureObservation);
    assert !QuoteFault(v, q, QuoteStale) && !QuoteFault(v, q, InvalidOpen);
  }

  lemma QuoteExactly(v: Input)
    requires v.quote.Some?
    ensures QuoteReasons(v, v.quote.value) == [] <==> QuoteSound(v)
  {
    var q := v.quote.value;
    var reasons := QuoteReasons(v, q);
    hide QuoteReasons, QuoteSound, QuoteFault;
    if QuoteSound(v) {
      if reasons != [] {
        QuoteReasonsExactly(v, q, reasons[0]);
        SoundHasNoFault(v, reasons[0]);
      }
    } else if reasons == [] {
      forall x ensures !QuoteFault(v, q, x) {
        QuoteReasonsExactly(v, q, x);
      }
      NoFaultIsSound(v);
    }
  }

  // ------------------------------------------------------------------ the figures

  function Volumes(bars: seq<HistoryValues>): real {
    if bars == [] then 0.0 else Volumes(bars[..|bars| - 1]) + bars[|bars| - 1].volume
  }

  /** One of the times, and none is later. */
  ghost predicate IsLatest(bars: seq<HistoryValues>, t: Micros) {
    (exists i :: 0 <= i < |bars| && bars[i].observedAt == t) && forall i :: 0 <= i < |bars| ==> bars[i].observedAt <= t
  }

  ghost predicate TrueRangesOf(h: seq<HistoryValues>, ranges: seq<real>) {
    |ranges| == |h| - 1 &&
    forall i :: 0 <= i < |ranges| ==> ranges[i] == TrueRange(OhlcOf(h[i]), OhlcOf(h[i + 1]))
  }

  /** The figure of a field, as of a time. */
  predicate Shown(f: Metrics, field: Field, at: Micros) { field in f && f[field].asOf == at }

  /** Quote and metadata: the capitalization, the price and its change from the open. */
  ghost predicate FrontFigures(v: Input, f: Metrics)
    requires v.quote.Some? && v.quote.value.price.Some? && v.quote.value.open.Some? && v.marketCap.value.Some?
  {
    var q := v.quote.value;
    && Shown(f, MarketCap, v.marketCap.observedAt) && f[MarketCap].value == v.marketCap.value.value
    && Shown(f, Price, q.observedAt) && f[Price].value == q.price.value
    && Shown(f, ChangeFromOpenPct, q.observedAt)
    && f[ChangeFromOpenPct].value * q.open.value == 100.0 * (q.price.value - q.open.value)
  }

  /** The true ranges under Wilder's weights. */
  ghost predicate IsSmoothed(h: seq<HistoryValues>, x: real)
    requires |h| == 91
  {
    forall ranges :: TrueRangesOf(h, ranges) ==> x == Dot(WilderWeights(14, 90), ranges)
  }

  /** The history: mean volumes of the last ninety and thirty days, and the Wilder range, alone and against the
      price. */
  ghost predicate HistoryFigures(price: Metric, h: seq<HistoryValues>, f: Metrics)
    requires |h| == 91
  {
    exists t :: IsLatest(h, t) &&
      var combined := if t < price.asOf then price.asOf else t;
      && Shown(f, AverageVolume90d, t) && f[AverageVolume90d].value * 90.0 == Volumes(h[1..])
      && Shown(f, AverageVolume30d, t) && f[AverageVolume30d].value * 30.0 == Volumes(h[61..])
      && Shown(f, Atr14d, t)
      && IsSmoothed(h, f[Atr14d].value)
      && Shown(f, AtrPct, combined) && f[AtrPct].value * price.value == 100.0 * f[Atr14d].value
      && Shown(f, DollarVolume30d, combined) && f[DollarVolume30d].value == price.value * f[AverageVolume30d].value
  }

  /** The slots: the current one against the mean of the ten before. */
  ghost predicate SlotFigures(slots: seq<HistoryValues>, f: Metrics)
    requires |slots| == 11
  {
    exists t :: IsLatest(slots, t) && Shown(f, RelVolume, t) &&
                f[RelVolume].value * Volumes(slots[..10]) == 10.0 * slots[10].volume
  }

  lemma {:induction false} VolumesSum(bars: seq<HistoryValues>)
    ensures Sum(Map(bars, VolumeOf)) == Volumes(bars)
  {
    if bars != [] {
      var n := |bars| - 1;
      VolumesSum(bars[..n]);
      assert Map(bars, VolumeOf) == Map(bars[..n], VolumeOf) + [bars[n].volume];
      SumSnoc(Map(bars[..n], VolumeOf), bars[n].volume);
    }
  }

  lemma LatestIsLatest(bars: seq<HistoryValues>)
    requires bars != []
    ensures IsLatest(bars, LatestOf(Map(bars, ObservedAt)))
  {
    var times := Map(bars, ObservedAt);
    var t := LatestOf(times);
    hide LatestOf;
    var i :| 0 <= i < |times| && times[i] == t;
    assert bars[i].observedAt == t;
    forall j | 0 <= j < |bars| ensures bars[j].observedAt <= t {
      assert times[j] in times;
    }
  }

  lemma MeanVolumeTimes(h: seq<HistoryValues>, n: nat)
    requires 0 < n <= |h|
    ensures MeanVolume(h, n) * n as real == Volumes(h[|h| - n..])
  {
    hide Sum;
    var last := LastOf(h, n);
    assert last == h[|h| - n..];
    VolumesSum(last);
    Multiplied(Sum(Map(last, VolumeOf)), n as real);
  }

  lemma Multiplied(x: real, n: real)
    requires n != 0.0
    ensures x / n * n == x
  {
  }

  lemma HistoryAtrIsDot(h: seq<HistoryValues>, ranges: seq<real>)
    requires |h| == 91 && TrueRangesOf(h, ranges)
    ensures HistoryAtr(h) == Dot(WilderWeights(14, 90), ranges)
  {
    hide TrueRange, Dot, WilderWeights, Wilder;
    var bars := Map(h, OhlcOf);
    forall i | 0 <= i < |ranges| ensures ranges[i] == TrueRanges(bars)[i] {
      TrueRangesAt(bars, i);
    }
    assert ranges == TrueRanges(bars) == Ranges(h);
    WilderIsWeightedAverage(ranges, 14, 90);
    assert ranges[..90] == ranges;
  }

  /** Metadata, session and quote are sound; each of the ninety-one prior sessions has its only usable daily bar, and
      the last ten of them and the current one have their only usable slot bar; and the ten traded. */
  ghost predicate Clean(v: Input, zone: Clock.Zone, h: seq<HistoryValues>, slots: seq<HistoryValues>) {
    && MetadataSound(v) && SessionSound(v, zone) && QuoteSound(v)
    && |Prior(v)| == 91 && HistoryFound(v, Prior(v), h)
    && SlotsFound(v, Prior(v)[81..] + [Current(v).value], v.completedBarEnd - Current(v).value.open, slots)
    && 0.0 < Volumes(slots[..10])
  }

  ghost predicate Figures(v: Input, h: seq<HistoryValues>, slots: seq<HistoryValues>, f: Metrics)
    requires MetadataSound(v) && QuoteSound(v) && |h| == 91 && |slots| == 11
  {
    FrontFigures(v, f) && HistoryFigures(f[Price], h, f) && SlotFigures(slots, f)
  }

  ghost predicate Representable(f: Metrics) { forall field: Field :: field in f && FiniteDouble(f[field].value) }

  /** The figures as the parts compute them. */
  function FrontExpected(v: Input): Metrics
    requires MetadataSound(v) && QuoteSound(v)
  {
    var q := v.quote.value;
    map[MarketCap := Metric(v.marketCap.value.value, v.marketCap.observedAt),
        Price := Metric(q.price.value, q.observedAt),
        ChangeFromOpenPct := Metric(ChangePct(q.price.value, q.open.value), q.observedAt)]
  }

  function HistoryExpected(price: Metric, h: seq<HistoryValues>): Metrics
    requires |h| == 91 && price.value != 0.0
  {
    var t, a30 := LatestOf(Map(h, ObservedAt)), MeanVolume(h, 30);
    var combined := if t < price.asOf then price.asOf else t;
    map[AverageVolume90d := Metric(MeanVolume(h, 90), t), AverageVolume30d := Metric(a30, t),
        Atr14d := Metric(HistoryAtr(h), t), AtrPct := Metric(PercentOf(HistoryAtr(h), price.value), combined),
        DollarVolume30d := Metric(Turnover(price.value, a30), combined)]
  }

  function SlotExpected(slots: seq<HistoryValues>): Metrics
    requires |slots| == 11 && Sum(Map(slots[..10], VolumeOf)) / 10.0 != 0.0
  {
    map[RelVolume := Metric(slots[10].volume / (Sum(Map(slots[..10], VolumeOf)) / 10.0),
                            LatestOf(Map(slots, ObservedAt)))]
  }

  predicate AllFinite(f: Metrics) { forall field :: field in f ==> FiniteDouble(f[field].value) }

  /** Publishing shows the figure, if it fits a double. */
  lemma Publishing(field: Field, x: real, at: Micros)
    ensures Publish(field, x, at) == if FiniteDouble(x) then Work([], map[field := Metric(x, at)])
                                     else Work([InvalidBar], map[])
  {
    hide FiniteDouble;
  }

  lemma CapWork(v: Input)
    requires MetadataSound(v)
    ensures CapPart(v).reasons == [] <==> FiniteDouble(v.marketCap.value.value)
    ensures FiniteDouble(v.marketCap.value.value) ==>
      CapPart(v).metrics == map[MarketCap := Metric(v.marketCap.value.value, v.marketCap.observedAt)]
  {
    hide FiniteDouble, RightMarket, RightExchange, RightMapping, RightCurrency;
  }

  lemma QuoteWork(v: Input)
    requires QuoteSound(v)
    ensures var q := v.quote.value;
            var change := ChangePct(q.price.value, q.open.value);
            && (QuotePart(v).reasons == [] <==> FiniteDouble(q.price.value) && FiniteDouble(change))
            && (QuotePart(v).reasons == [] ==>
                  QuotePart(v).metrics ==
                  map[Price := Metric(q.price.value, q.observedAt), ChangeFromOpenPct := Metric(change, q.observedAt)])
  {
    QuoteExactly(v);
    hide QuoteReasons, FiniteDouble, PricedWithin, ChangePct;
  }

  /** Parts that add nothing leave the others as they are. */
  lemma FrontSum(cap: Work, quote: Work)
    ensures var w := Plus(Plus(Plus(NOTHING, cap), NOTHING), quote);
            && (w.reasons == [] <==> cap.reasons == [] && quote.reasons == [])
            && w.metrics == cap.metrics + quote.metrics
  {
  }

  lemma FrontParts(v: Input, zone: Clock.Zone)
    requires MetadataSound(v) && SessionSound(v, zone) && QuoteSound(v)
    ensures FrontPart(v, zone) == Plus(Plus(Plus(NOTHING, CapPart(v)), NOTHING), QuotePart(v))
  {
    SessionExactly(v, zone);
    FrontKnown(v);
    hide MetadataSound, SessionSound, QuoteSound, IdentityReasons, SessionReasons, QuotePart, CapPart, AdjustmentOk,
         Plus;
  }

  lemma FrontExpectedSum(v: Input)
    requires MetadataSound(v) && QuoteSound(v)
    ensures var q := v.quote.value;
            FrontExpected(v) ==
            map[MarketCap := Metric(v.marketCap.value.value, v.marketCap.observedAt)] +
            map[Price := Metric(q.price.value, q.observedAt),
                ChangeFromOpenPct := Metric(ChangePct(q.price.value, q.open.value), q.observedAt)]
  {
    hide PricedWithin, RightMarket, RightExchange, RightMapping, RightCurrency, ChangePct;
  }

  lemma FrontOfClean(v: Input, zone: Clock.Zone)
    requires MetadataSound(v) && SessionSound(v, zone) && QuoteSound(v)
    ensures FrontPart(v, zone).reasons == [] <==> AllFinite(FrontExpected(v))
    ensures AllFinite(FrontExpected(v)) ==> FrontPart(v, zone).metrics == FrontExpected(v)
  {
    hide *;
    FrontKnown(v);
    FrontParts(v, zone);
    FrontSum(CapPart(v), QuotePart(v));
    FrontFinite(v);
    FrontExpectedSum(v);
    CapWork(v);
    QuoteWork(v);
  }

  lemma FrontFinite(v: Input)
    requires MetadataSound(v) && QuoteSound(v)
    ensures var q := v.quote.value;
            AllFinite(FrontExpected(v)) <==>
            && FiniteDouble(v.marketCap.value.value) && FiniteDouble(q.price.value)
            && FiniteDouble(ChangePct(q.price.value, q.open.value))
  {
    hide FiniteDouble, PricedWithin, RightMarket, RightExchange, RightMapping, RightCurrency, ChangePct;
    var f := FrontExpected(v);
    assert MarketCap in f && Price in f && ChangeFromOpenPct in f;
  }

  lemma FrontKnown(v: Input)
    requires MetadataSound(v) && QuoteSound(v)
    ensures v.marketCap.value.Some? && 0.0 <= v.marketCap.value.value && v.marketCap.observedAt <= v.evaluationAt
    ensures v.quote.Some? && v.quote.value.price.Some? && v.quote.value.open.Some?
    ensures v.quote.value.open.value > 0.0 && v.quote.value.price.value > 0.0
    ensures IdentityReasons(v) == [] && AdjustmentOk(v)
  {
    var reasons := IdentityReasons(v);
    if reasons != [] { IdentityReasonsExactly(v, reasons[0]); }
  }

  lemma HistoryOfClean(v: Input, zone: Clock.Zone, h: seq<HistoryValues>, price: Metric)
    requires CalendarOk(v, zone) && |Prior(v)| == 91 && HistoryFound(v, Prior(v), h) && price.value != 0.0
    ensures |h| == 91
    ensures HistoryPart(v, zone, Some(price)).reasons == [] <==> AllFinite(HistoryExpected(price, h))
    ensures AllFinite(HistoryExpected(price, h)) ==>
      HistoryPart(v, zone, Some(price)).metrics == HistoryExpected(price, h)
  {
    hide CalendarOk, Prior, DailyScan, DailyFound, MeanVolume, HistoryAtr, LatestOf, FiniteDouble, HistoryExpected,
         HistoryMetrics, AllFinite;
    DailyScanExactly(v, Prior(v), h);
    HistoryWork(h, price);
  }

  lemma BaseWork(h: seq<HistoryValues>, t: Micros)
    requires |h| == 91
    ensures var w := VolumeAndRange(h, t);
            && (w.reasons == [] <==>
                  FiniteDouble(MeanVolume(h, 90)) && FiniteDouble(MeanVolume(h, 30)) && FiniteDouble(HistoryAtr(h)))
            && (w.reasons == [] ==>
                  w.metrics == map[AverageVolume90d := Metric(MeanVolume(h, 90), t),
                                   AverageVolume30d := Metric(MeanVolume(h, 30), t),
                                   Atr14d := Metric(HistoryAtr(h), t)])
  {
    hide MeanVolume, HistoryAtr, FiniteDouble;
  }

  lemma PricedWork(atr: real, volume: real, t: Micros, price: Metric)
    requires price.value != 0.0
    ensures var w, combined := Priced(atr, Some(volume), t, price), if t < price.asOf then price.asOf else t;
            && (w.reasons == [] <==>
                  FiniteDouble(PercentOf(atr, price.value)) && FiniteDouble(Turnover(price.value, volume)))
            && (w.reasons == [] ==>
                  w.metrics == map[AtrPct := Metric(PercentOf(atr, price.value), combined),
                                   DollarVolume30d := Metric(Turnover(price.value, volume), combined)])
  {
    hide FiniteDouble, PercentOf, Turnover;
  }

  lemma HistoryFinite(h: seq<HistoryValues>, price: Metric)
    requires |h| == 91 && price.value != 0.0
    ensures AllFinite(HistoryExpected(price, h)) <==>
            && FiniteDouble(MeanVolume(h, 90)) && FiniteDouble(MeanVolume(h, 30)) && FiniteDouble(HistoryAtr(h))
            && FiniteDouble(PercentOf(HistoryAtr(h), price.value))
            && FiniteDouble(Turnover(price.value, MeanVolume(h, 30)))
  {
    hide MeanVolume, HistoryAtr, LatestOf, FiniteDouble, PercentOf, Turnover;
    var f := HistoryExpected(price, h);
    assert AverageVolume90d in f && AverageVolume30d in f && Atr14d in f && AtrPct in f && DollarVolume30d in f;
  }

  lemma PlusExactly(a: Work, b: Work)
    ensures Plus(a, b).reasons == [] <==> a.reasons == [] && b.reasons == []
    ensures Plus(a, b).metrics == a.metrics + b.metrics
  {
  }

  lemma HistorySum(h: seq<HistoryValues>, price: Metric)
    requires |h| == 91 && price.value != 0.0
    ensures var t := LatestOf(Map(h, ObservedAt));
            var combined := if t < price.asOf then price.asOf else t;
            HistoryExpected(price, h) ==
            map[AverageVolume90d := Metric(MeanVolume(h, 90), t), AverageVolume30d := Metric(MeanVolume(h, 30), t),
                Atr14d := Metric(HistoryAtr(h), t)] +
            map[AtrPct := Metric(PercentOf(HistoryAtr(h), price.value), combined),
                DollarVolume30d := Metric(Turnover(price.value, MeanVolume(h, 30)), combined)]
  {
    hide MeanVolume, HistoryAtr, LatestOf, PercentOf, Turnover, Map;
  }

  /** The average volume is published whenever it fits, as the priced figures need it. */
  lemma VolumeKnown(h: seq<HistoryValues>, t: Micros)
    requires |h| == 91
    ensures ValueIn(VolumeAndRange(h, t).metrics, AverageVolume30d) ==
            if FiniteDouble(MeanVolume(h, 30)) then Some(MeanVolume(h, 30)) else None
  {
    hide MeanVolume, HistoryAtr, FiniteDouble;
  }

  lemma HistoryWork(h: seq<HistoryValues>, price: Metric)
    requires |h| == 91 && price.value != 0.0
    ensures HistoryMetrics(h, Some(price)).reasons == [] <==> AllFinite(HistoryExpected(price, h))
    ensures AllFinite(HistoryExpected(price, h)) ==> HistoryMetrics(h, Some(price)).metrics == HistoryExpected(price, h)
  {
    var t := LatestOf(Map(h, ObservedAt));
    var atr, a30 := HistoryAtr(h), MeanVolume(h, 30);
    var base := VolumeAndRange(h, t);
    BaseWork(h, t);
    VolumeKnown(h, t);
    HistoryFinite(h, price);
    HistorySum(h, price);
    PricedWork(atr, a30, t, price);
    var priced := Priced(atr, ValueIn(base.metrics, AverageVolume30d), t, price);
    PlusExactly(base, priced);
    assert HistoryMetrics(h, Some(price)) == Plus(base, priced);
    hide *;
  }

  lemma SlotsOfClean(v: Input, zone: Clock.Zone, slots: seq<HistoryValues>)
    requires SessionSound(v, zone) && |Prior(v)| == 91
    requires SlotsFound(v, Prior(v)[81..] + [Current(v).value], v.completedBarEnd - Current(v).value.open, slots)
    requires 0.0 < Volumes(slots[..10])
    ensures |slots| == 11 && Sum(Map(slots[..10], VolumeOf)) / 10.0 > 0.0
    ensures SlotPart(v, zone).reasons == [] <==> AllFinite(SlotExpected(slots))
    ensures AllFinite(SlotExpected(slots)) ==> SlotPart(v, zone).metrics == SlotExpected(slots)
  {
    BoundaryExactly(v);
    hide CalendarOk, Prior, Current, BoundaryOk, SlotScan, SlotFound, LatestBoundary, LatestOf, FiniteDouble, Sum;
    SlotScanExactly(v, Prior(v)[81..] + [Current(v).value], v.completedBarEnd - Current(v).value.open, slots);
    assert SlotSessions(v) == Prior(v)[81..] + [Current(v).value];
    VolumesSum(slots[..10]);
    assert AllFinite(SlotExpected(slots)) <==> FiniteDouble(SlotExpected(slots)[RelVolume].value);
  }

  function Expected(v: Input, h: seq<HistoryValues>, slots: seq<HistoryValues>): Metrics
    requires MetadataSound(v) && QuoteSound(v) && |h| == 91 && |slots| == 11
    requires Sum(Map(slots[..10], VolumeOf)) / 10.0 != 0.0
  {
    FrontExpected(v) + HistoryExpected(FrontExpected(v)[Price], h) + SlotExpected(slots)
  }

  /** Under sound inputs the evidence is without reasons as soon as every figure fits a double. */
  lemma EvidenceOfClean(v: Input, zone: Clock.Zone, h: seq<HistoryValues>, slots: seq<HistoryValues>)
    requires Clean(v, zone, h, slots)
    ensures |h| == 91 && |slots| == 11 && Sum(Map(slots[..10], VolumeOf)) / 10.0 > 0.0
    ensures Evidence(v, zone).reasons == [] <==> Representable(Expected(v, h, slots))
    ensures Evidence(v, zone).reasons == [] ==> Evidence(v, zone).metrics == Expected(v, h, slots)
  {
    hide FrontPart, HistoryPart, SlotPart, MetadataSound, QuoteSound, HistoryFound, SlotsFound, Volumes, Prior, Current,
         FrontExpected, HistoryExpected, SlotExpected, FiniteDouble, CalendarOk, LatestBoundary, Sum;
    FrontOfClean(v, zone);
    SlotsOfClean(v, zone, slots);
    ExpectedPrice(v);
    var price := FrontExpected(v)[Price];
    HistoryOfClean(v, zone, h, price);
    ExpectedFields(v, h, slots);
  }

  lemma ExpectedPrice(v: Input)
    requires MetadataSound(v) && QuoteSound(v)
    ensures Price in FrontExpected(v) && FrontExpected(v)[Price].value > 0.0
  {
  }

  lemma ExpectedFields(v: Input, h: seq<HistoryValues>, slots: seq<HistoryValues>)
    requires MetadataSound(v) && QuoteSound(v) && |h| == 91 && |slots| == 11
    requires Sum(Map(slots[..10], VolumeOf)) / 10.0 != 0.0
    ensures Representable(Expected(v, h, slots)) <==>
            && AllFinite(FrontExpected(v)) && AllFinite(HistoryExpected(FrontExpected(v)[Price], h))
            && AllFinite(SlotExpected(slots))
  {
    hide FiniteDouble, MeanVolume, HistoryAtr, LatestOf, Sum, MetadataSound;
    var f, a, b, c :=
      Expected(v, h, slots), FrontExpected(v), HistoryExpected(FrontExpected(v)[Price], h), SlotExpected(slots);
    assert f.Keys == a.Keys + b.Keys + c.Keys;
    forall field: Field ensures field in f {
      assert || field in {MarketCap, Price, ChangeFromOpenPct}
             || field in {AverageVolume90d, AverageVolume30d, Atr14d, AtrPct, DollarVolume30d} || field == RelVolume;
    }
    assert a.Keys !! b.Keys !! c.Keys;
  }

  // ------------------------------------------------------------------ the figures are the ones computed

  predicate Extends(f: Metrics, part: Metrics) {
    forall field :: field in part ==> field in f && f[field] == part[field]
  }

  lemma Quotient(x: real, a: real, b: real)
    requires b != 0.0
    ensures x * b == a <==> x == a / b
  {
  }

  lemma ChangeIsQuotient(x: real, price: real, open: real)
    requires open != 0.0
    ensures x * open == 100.0 * (price - open) <==> x == ChangePct(price, open)
  {
    Quotient(x, 100.0 * (price - open), open);
  }

  lemma PercentIsQuotient(x: real, a: real, price: real)
    requires price != 0.0
    ensures x * price == 100.0 * a <==> x == PercentOf(a, price)
  {
    Quotient(x, 100.0 * a, price);
  }

  lemma FrontFits(v: Input, f: Metrics)
    requires MetadataSound(v) && QuoteSound(v)
    ensures FrontFigures(v, f) <==> Extends(f, FrontExpected(v))
  {
    hide PricedWithin, RightMarket, RightExchange, RightMapping, RightCurrency, ChangePct;
    var q := v.quote.value;
    if ChangeFromOpenPct in f {
      ChangeIsQuotient(f[ChangeFromOpenPct].value, q.price.value, q.open.value);
    }
    var part := FrontExpected(v);
    assert MarketCap in part && Price in part && ChangeFromOpenPct in part;
  }

  lemma LatestIsUnique(bars: seq<HistoryValues>, t: Micros)
    requires bars != []
    ensures IsLatest(bars, t) <==> t == LatestOf(Map(bars, ObservedAt))
  {
    LatestIsLatest(bars);
    hide LatestOf;
  }

  /** As the exponential smoothing is a weighted sum, its value is the one every such sum has. */
  lemma RangeFits(h: seq<HistoryValues>, x: real)
    requires |h| == 91
    ensures IsSmoothed(h, x) <==> x == HistoryAtr(h)
  {
    hide TrueRange, Dot, WilderWeights, HistoryAtr;
    var ranges := seq(90, (i: nat) requires i < 90 => TrueRange(OhlcOf(h[i]), OhlcOf(h[i + 1])));
    assert TrueRangesOf(h, ranges);
    forall other | TrueRangesOf(h, other) ensures HistoryAtr(h) == Dot(WilderWeights(14, 90), other) {
      HistoryAtrIsDot(h, other);
    }
  }

  lemma MeanFits(h: seq<HistoryValues>, n: nat, x: real)
    requires 0 < n <= |h|
    ensures x * n as real == Volumes(h[|h| - n..]) <==> x == MeanVolume(h, n)
  {
    MeanVolumeTimes(h, n);
    Quotient(x, Volumes(h[|h| - n..]), n as real);
    Quotient(MeanVolume(h, n), Volumes(h[|h| - n..]), n as real);
  }

  lemma HistoryFits(price: Metric, h: seq<HistoryValues>, f: Metrics)
    requires |h| == 91 && price.value != 0.0
    ensures HistoryFigures(price, h, f) <==> Extends(f, HistoryExpected(price, h))
  {
    hide MeanVolume, HistoryAtr, LatestOf, PercentOf, IsLatest, Volumes, IsSmoothed;
    forall t ensures IsLatest(h, t) <==> t == LatestOf(Map(h, ObservedAt)) {
      LatestIsUnique(h, t);
    }
    LatestIsLatest(h);
    if AverageVolume90d in f { MeanFits(h, 90, f[AverageVolume90d].value); }
    if AverageVolume30d in f { MeanFits(h, 30, f[AverageVolume30d].value); }
    if Atr14d in f { RangeFits(h, f[Atr14d].value); }
    if AtrPct in f { PercentIsQuotient(f[AtrPct].value, HistoryAtr(h), price.value); }
    var part := HistoryExpected(price, h);
    assert AverageVolume90d in part && AverageVolume30d in part && Atr14d in part && AtrPct in part &&
           DollarVolume30d in part;
  }

  lemma RelativeFits(x: real, total: real, current: real)
    requires 0.0 < total
    ensures x * total == 10.0 * current <==> x == current / (total / 10.0)
  {
    Quotient(x, 10.0 * current, total);
    assert 10.0 * current / total == current / (total / 10.0);
  }

  lemma SlotFits(slots: seq<HistoryValues>, f: Metrics)
    requires |slots| == 11 && 0.0 < Volumes(slots[..10])
    ensures Sum(Map(slots[..10], VolumeOf)) / 10.0 > 0.0
    ensures SlotFigures(slots, f) <==> Extends(f, SlotExpected(slots))
  {
    hide LatestOf, IsLatest, Volumes, Sum;
    VolumesSum(slots[..10]);
    forall t ensures IsLatest(slots, t) <==> t == LatestOf(Map(slots, ObservedAt)) {
      LatestIsUnique(slots, t);
    }
    LatestIsLatest(slots);
    if RelVolume in f { RelativeFits(f[RelVolume].value, Volumes(slots[..10]), slots[10].volume); }
    assert RelVolume in SlotExpected(slots);
  }

  lemma ExpectedExtends(a: Metrics, b: Metrics, c: Metrics, f: Metrics)
    requires a.Keys == {MarketCap, Price, ChangeFromOpenPct} && c.Keys == {RelVolume}
    requires b.Keys == {AverageVolume90d, AverageVolume30d, Atr14d, AtrPct, DollarVolume30d}
    requires forall field: Field :: field in f
    ensures Extends(f, a) && Extends(f, b) && Extends(f, c) <==> f == a + b + c
  {
    if Extends(f, a) && Extends(f, b) && Extends(f, c) {
      forall field: Field ensures field in a + b + c && f[field] == (a + b + c)[field] {
        match field {
          case MarketCap | Price | ChangeFromOpenPct => assert field in a.Keys;
          case RelVolume => assert field in c.Keys;
          case _ => assert field in b.Keys;
        }
      }
    }
  }

  lemma ExpectedKeys(v: Input, h: seq<HistoryValues>, slots: seq<HistoryValues>)
    requires MetadataSound(v) && QuoteSound(v) && |h| == 91 && |slots| == 11
    requires Sum(Map(slots[..10], VolumeOf)) / 10.0 != 0.0
    ensures FrontExpected(v).Keys == {MarketCap, Price, ChangeFromOpenPct} && SlotExpected(slots).Keys == {RelVolume}
    ensures HistoryExpected(FrontExpected(v)[Price], h).Keys ==
            {AverageVolume90d, AverageVolume30d, Atr14d, AtrPct, DollarVolume30d}
    ensures FrontExpected(v)[Price].value != 0.0
  {
    hide MeanVolume, HistoryAtr, LatestOf, PercentOf, Turnover, ChangePct, Sum, MetadataSound, PricedWithin;
  }

  /** Exactly the computed figures are figures of the input. */
  lemma FiguresFit(v: Input, h: seq<HistoryValues>, slots: seq<HistoryValues>, f: Metrics)
    requires MetadataSound(v) && QuoteSound(v) && |h| == 91 && |slots| == 11 && 0.0 < Volumes(slots[..10])
    requires forall field: Field :: field in f
    ensures Sum(Map(slots[..10], VolumeOf)) / 10.0 > 0.0
    ensures Figures(v, h, slots, f) <==> f == Expected(v, h, slots)
  {
    hide FrontExpected, HistoryExpected, SlotExpected, FrontFigures, HistoryFigures, SlotFigures, MetadataSound,
         QuoteSound, Volumes, Sum, Extends;
    SlotFits(slots, f);
    FrontFits(v, f);
    ExpectedKeys(v, h, slots);
    var price := FrontExpected(v)[Price];
    HistoryFits(price, h, f);
    ExpectedExtends(FrontExpected(v), HistoryExpected(price, h), SlotExpected(slots), f);
    assert Extends(f, FrontExpected(v)) ==> f[Price] == price by { PriceExtends(f, FrontExpected(v)); }
  }

  lemma PriceExtends(f: Metrics, part: Metrics)
    requires Price in part && Price in f
    ensures Extends(f, part) ==> f[Price] == part[Price]
  {
  }

  // ------------------------------------------------------------------ the verdict from the input

  lemma FrontIsSound(v: Input, zone: Clock.Zone)
    requires FrontPart(v, zone).reasons == []
    ensures MetadataSound(v) && SessionSound(v, zone) && QuoteSound(v)
  {
    FrontEmpty(v, zone);
    MetadataExactly(v);
    SessionExactly(v, zone);
    hide MetadataSound, SessionSound, QuoteSound, IdentityReasons, SessionReasons, CapPart, QuoteReasons, FrontPart,
         AdjustmentOk;
    QuoteExactly(v);
  }

  lemma FrontEmpty(v: Input, zone: Clock.Zone)
    requires FrontPart(v, zone).reasons == []
    ensures IdentityReasons(v) == [] && CapPart(v).reasons == [] && AdjustmentOk(v) && SessionReasons(v, zone) == []
    ensures v.quote.Some? && QuoteReasons(v, v.quote.value) == [] && FiniteDouble(v.marketCap.value.value)
  {
  }

  lemma HistoryIsFound(v: Input, zone: Clock.Zone, price: Option<Metric>)
    requires HistoryPart(v, zone, price).reasons == []
    ensures |Prior(v)| == 91 && HistoryFound(v, Prior(v), DailyScan(v, Prior(v)).accepted)
  {
    hide CalendarOk, Prior, DailyScan, HistoryMetrics, DailyFound;
    DailyScanExactly(v, Prior(v), []);
  }

  lemma SlotsAreFound(v: Input, zone: Clock.Zone) returns (slots: seq<HistoryValues>)
    requires SlotPart(v, zone).reasons == [] && |Prior(v)| == 91
    ensures Current(v).Some?
    ensures SlotsFound(v, Prior(v)[81..] + [Current(v).value], v.completedBarEnd - Current(v).value.open, slots)
    ensures |slots| == 11 && 0.0 < Volumes(slots[..10])
  {
    hide CalendarOk, Prior, Current, BoundaryOk, SlotScan, SlotFound, FiniteDouble, Sum;
    var offset := v.completedBarEnd - Current(v).value.open;
    SlotScanExactly(v, SlotSessions(v), offset, []);
    slots := SlotScan(v, SlotSessions(v), offset).accepted;
    VolumesSum(slots[..10]);
  }

  lemma EvidenceEmpty(v: Input, zone: Clock.Zone)
    requires Evidence(v, zone).reasons == []
    ensures FrontPart(v, zone).reasons == [] && SlotPart(v, zone).reasons == []
    ensures HistoryPart(v, zone, PublishedPrice(FrontPart(v, zone))).reasons == []
  {
    hide FrontPart, HistoryPart, SlotPart;
  }

  lemma CleanFrom(v: Input, zone: Clock.Zone, h: seq<HistoryValues>, slots: seq<HistoryValues>)
    requires MetadataSound(v) && SessionSound(v, zone) && QuoteSound(v)
    requires |Prior(v)| == 91 && HistoryFound(v, Prior(v), h)
    requires SlotsFound(v, Prior(v)[81..] + [Current(v).value], v.completedBarEnd - Current(v).value.open, slots)
    requires |slots| == 11 && 0.0 < Volumes(slots[..10])
    ensures Clean(v, zone, h, slots)
  {
    hide MetadataSound, SessionSound, QuoteSound, HistoryFound, SlotsFound, Volumes, Prior, Current;
  }

  lemma EvidenceIsClean(v: Input, zone: Clock.Zone) returns (h: seq<HistoryValues>, slots: seq<HistoryValues>)
    requires Evidence(v, zone).reasons == []
    ensures Clean(v, zone, h, slots)
  {
    hide *;
    EvidenceEmpty(v, zone);
    FrontIsSound(v, zone);
    HistoryIsFound(v, zone, PublishedPrice(FrontPart(v, zone)));
    slots := SlotsAreFound(v, zone);
    h := DailyScan(v, Prior(v)).accepted;
    CleanFrom(v, zone, h, slots);
  }

  /** What a clean input publishes: all nine figures, each in the range of a double. */
  ghost predicate Published(v: Input, zone: Clock.Zone, h: seq<HistoryValues>, slots: seq<HistoryValues>, f: Metrics) {
    Clean(v, zone, h, slots) && Representable(f) && Figures(v, h, slots, f)
  }

  lemma PublishedExactly(v: Input, zone: Clock.Zone, h: seq<HistoryValues>, slots: seq<HistoryValues>, f: Metrics)
    requires Clean(v, zone, h, slots)
    ensures Published(v, zone, h, slots, f) <==> Evidence(v, zone).reasons == [] && f == Evidence(v, zone).metrics
  {
    EvidenceOfClean(v, zone, h, slots);
    EvidencePublished(v, zone);
    hide Evidence, Figures, Expected, FiniteDouble, AsOfBy, Clean, SessionReasons;
    if forall field: Field :: field in f { ExpectedOfClean(v, zone, h, slots, f); }
  }

  lemma ExpectedOfClean(v: Input, zone: Clock.Zone, h: seq<HistoryValues>, slots: seq<HistoryValues>, f: Metrics)
    requires Clean(v, zone, h, slots) && forall field: Field :: field in f
    ensures |h| == 91 && |slots| == 11 && Sum(Map(slots[..10], VolumeOf)) / 10.0 > 0.0
    ensures Figures(v, h, slots, f) <==> f == Expected(v, h, slots)
  {
    hide Expected, Figures, MetadataSound, QuoteSound, SessionSound, DailyFound, SlotFound, Volumes, Prior, Sum;
    FiguresFit(v, h, slots, f);
  }

  /** A timely evaluation passes exactly when the input is clean and its figures meet the market's policy; it fails
      exactly when the input is clean and its figures do not; and it shows these figures. */
  lemma PassExactly(v: Input, zone: Clock.Zone, now: Micros)
    requires Timely(v, now)
    ensures Evaluate(v, zone, now).state == Pass <==>
            exists h, slots, f :: Published(v, zone, h, slots, f) && MeetsPolicy(v.market, f)
    ensures Evaluate(v, zone, now).state == Fail <==>
            exists h, slots, f :: Published(v, zone, h, slots, f) && !MeetsPolicy(v.market, f)
    ensures forall h, slots, f :: Published(v, zone, h, slots, f) ==> Evaluate(v, zone, now).metrics == f
  {
    VerdictExactly(v, zone, now);
    hide Evaluate, Evidence, Clean, Representable, Figures, MeetsPolicy;
    forall h, slots, f | Published(v, zone, h, slots, f)
      ensures Evidence(v, zone).reasons == [] && f == Evidence(v, zone).metrics {
      PublishedExactly(v, zone, h, slots, f);
    }
    if Evidence(v, zone).reasons == [] {
      var h, slots := EvidenceIsClean(v, zone);
      PublishedExactly(v, zone, h, slots, Evidence(v, zone).metrics);
    }
  }
}
