/** The contract that the consumer of discovery results checks, and the producer's proof of it
    (contracts/src/domains/discovery-evidence.ts:137-173). */
module DiscoveryContract {
  import opened Lists
  import Clock
  import opened Discovery

  /** `Date.parse` reads whole milliseconds. */
  function Millis(t: Micros): int { t / 1000 }

  ghost predicate PolicyMatches(r: Result) {
    r.policyVersion == if r.market.CaTsx? then CaDiscoveryV1 else UsDiscoveryV1
  }

  ghost predicate PassIsComplete(r: Result) {
    && r.reasons == []
    && r.symbolId > 0
    && Millis(r.evaluationAt) <= Millis(r.computedAt)
    && Millis(r.computedAt) - Millis(r.evaluationAt) <= 120000
    && 15000 <= Millis(r.evaluationAt) - Millis(r.completedBarEnd) < 300000
    && (forall f: Field :: f in r.metrics && Millis(r.metrics[f].asOf) <= Millis(r.evaluationAt))
  }

  ghost predicate Accepts(r: Result) {
    && PolicyMatches(r)
    && (r.state.Pass? ==> PassIsComplete(r))
    && (!r.state.Pass? ==> r.reasons != [])
  }

  // ------------------------------------------------------------------ point-in-time metrics

  ghost predicate AsOfBy(w: Work, at: Micros) { forall f :: f in w.metrics ==> w.metrics[f].asOf <= at }

  lemma CapPublished(v: Input)
    ensures AsOfBy(CapPart(v), v.evaluationAt) && CapPart(v).metrics.Keys <= {MarketCap}
    ensures IdentityReasons(v) == [] && CapPart(v).reasons == [] ==> MarketCap in CapPart(v).metrics
  {
    hide FiniteDouble, ProviderExchanges, Exchanges, Upper, Strip;
  }

  lemma QuotePublished(v: Input)
    ensures AsOfBy(QuotePart(v), v.evaluationAt)
    ensures QuotePart(v).metrics.Keys <= {Price, ChangeFromOpenPct}
    ensures Price in QuotePart(v).metrics ==> QuotePart(v).metrics[Price].value > 0.0
    ensures QuotePart(v).reasons == [] ==> Price in QuotePart(v).metrics && ChangeFromOpenPct in QuotePart(v).metrics
  {
    hide FiniteDouble, SortedSessions, FindSession;
  }

  lemma {:induction false} DailyAccepted(v: Input, sessions: seq<CalendarSession>)
    ensures forall i :: 0 <= i < |DailyScan(v, sessions).accepted| ==>
              DailyScan(v, sessions).accepted[i].observedAt <= v.evaluationAt
  {
    hide DailyOn, PricesOk, AdjustmentOk;
    if sessions != [] {
      DailyAccepted(v, sessions[..|sessions| - 1]);
    }
  }

  lemma {:induction false} SlotAccepted(v: Input, sessions: seq<CalendarSession>, offset: int)
    ensures forall i :: 0 <= i < |SlotScan(v, sessions, offset).accepted| ==>
              SlotScan(v, sessions, offset).accepted[i].observedAt <= v.evaluationAt
  {
    hide SlotsAt, PricesOk, AdjustmentOk;
    if sessions != [] {
      SlotAccepted(v, sessions[..|sessions| - 1], offset);
    }
  }

  lemma LatestBy(bars: seq<HistoryValues>, at: Micros)
    requires bars != [] && forall i :: 0 <= i < |bars| ==> bars[i].observedAt <= at
    ensures LatestOf(Map(bars, ObservedAt)) <= at
  {
    var times := Map(bars, ObservedAt);
    var m := LatestOf(times);
    var i :| 0 <= i < |times| && times[i] == m;
  }

  ghost predicate HistoryFields(f: Field) {
    f.AverageVolume90d? || f.AverageVolume30d? || f.Atr14d? || f.AtrPct? || f.DollarVolume30d?
  }

  lemma VolumeAndRangePublished(history: seq<HistoryValues>, t: Micros)
    requires |history| == 91
    ensures var w := VolumeAndRange(history, t);
            && AsOfBy(w, t) && w.metrics.Keys <= {AverageVolume90d, AverageVolume30d, Atr14d}
            && (w.reasons == [] ==> w.metrics.Keys == {AverageVolume90d, AverageVolume30d, Atr14d})
  {
    hide FiniteDouble, MeanVolume, HistoryAtr;
  }

  lemma PricedPublished(atr: real, volume30: Option<real>, t: Micros, price: Metric, at: Micros)
    requires t <= at && price.asOf <= at && price.value > 0.0
    ensures var w := Priced(atr, volume30, t, price);
            && AsOfBy(w, at) && w.metrics.Keys <= {AtrPct, DollarVolume30d}
            && (w.reasons == [] && volume30.Some? ==> w.metrics.Keys == {AtrPct, DollarVolume30d})
  {
    hide FiniteDouble;
  }

  lemma HistoryMetricsPublished(history: seq<HistoryValues>, price: Option<Metric>, at: Micros)
    requires |history| == 91 && forall i :: 0 <= i < |history| ==> history[i].observedAt <= at
    requires price.Some? ==> price.value.asOf <= at && price.value.value > 0.0
    ensures var w := HistoryMetrics(history, price);
            && AsOfBy(w, at) && (forall f :: f in w.metrics ==> HistoryFields(f))
            && (w.reasons == [] && price.Some? ==> forall f :: HistoryFields(f) ==> f in w.metrics)
  {
    hide VolumeAndRange, Priced, HistoryAtr, LatestOf;
    LatestBy(history, at);
    var t := LatestOf(Map(history, ObservedAt));
    VolumeAndRangePublished(history, t);
    var base := VolumeAndRange(history, t);
    if price.Some? {
      PricedPublished(HistoryAtr(history), ValueIn(base.metrics, AverageVolume30d), t, price.value, at);
    }
  }

  lemma HistoryPublished(v: Input, zone: Clock.Zone, price: Option<Metric>)
    requires price.Some? ==> price.value.asOf <= v.evaluationAt && price.value.value > 0.0
    ensures var w := HistoryPart(v, zone, price);
            && AsOfBy(w, v.evaluationAt) && (forall f :: f in w.metrics ==> HistoryFields(f))
            && (w.reasons == [] && price.Some? ==> forall f :: HistoryFields(f) ==> f in w.metrics)
  {
    hide HistoryMetrics, CalendarOk, Prior, DailyScan, HistoryFields;
    DailyAccepted(v, Prior(v));
    var scan := ScannedHistory(v, zone);
    if |scan.accepted| == 91 {
      HistoryMetricsPublished(scan.accepted, price, v.evaluationAt);
    }
  }

  lemma SlotPublished(v: Input, zone: Clock.Zone)
    ensures var w := SlotPart(v, zone);
            && AsOfBy(w, v.evaluationAt) && w.metrics.Keys <= {RelVolume}
            && (w.reasons == [] ==> RelVolume in w.metrics)
  {
    hide SlotsApply, SlotScan, FiniteDouble, LatestOf, Sum;
    if SlotsApply(v, zone) {
      CurrentApplies(v, zone);
      var offset := v.completedBarEnd - Current(v).value.open;
      SlotAccepted(v, SlotSessions(v), offset);
      var scan := SlotScan(v, SlotSessions(v), offset);
      if |scan.accepted| == 11 { LatestBy(scan.accepted, v.evaluationAt); }
    }
  }

  lemma CurrentApplies(v: Input, zone: Clock.Zone)
    requires SlotsApply(v, zone)
    ensures Current(v).Some?
  {
  }

  lemma FrontPublished(v: Input, zone: Clock.Zone)
    ensures var w := FrontPart(v, zone);
            && AsOfBy(w, v.evaluationAt)
            && (Price in w.metrics ==> w.metrics[Price].value > 0.0)
            && (w.reasons == [] ==> MarketCap in w.metrics && Price in w.metrics && ChangeFromOpenPct in w.metrics)
            && (w.reasons == [] ==> SessionReasons(v, zone) == [])
  {
    hide IdentityReasons, CapPart, QuotePart, SessionReasons, AdjustmentOk;
    CapPublished(v);
    QuotePublished(v);
  }

  /** Evidence without reasons is complete and point-in-time. */
  lemma EvidencePublished(v: Input, zone: Clock.Zone)
    ensures var w := Evidence(v, zone);
            && AsOfBy(w, v.evaluationAt)
            && (w.reasons == [] ==> (forall f: Field :: f in w.metrics) && SessionReasons(v, zone) == [])
  {
    hide FrontPart, HistoryPart, SlotPart, SessionReasons;
    FrontPublished(v, zone);
    var front := FrontPart(v, zone);
    HistoryPublished(v, zone, PublishedPrice(front));
    SlotPublished(v, zone);
    var w := Evidence(v, zone);
    if w.reasons == [] {
      forall f: Field ensures f in w.metrics {
        assert HistoryFields(f) || f in {MarketCap, Price, ChangeFromOpenPct, RelVolume};
      }
    }
  }

  /** An evaluation without session reasons lies in its five minutes, fifteen seconds after the bar. */
  lemma WithinTheBar(v: Input, zone: Clock.Zone)
    requires SessionReasons(v, zone) == []
    ensures 15 * SECOND <= v.evaluationAt - v.completedBarEnd < FIVE_MINUTES
  {
    hide CalendarOk, Current;
    var open := Current(v).value.open;
    var elapsed := v.evaluationAt - open;
    assert elapsed == elapsed / FIVE_MINUTES * FIVE_MINUTES + elapsed % FIVE_MINUTES;
  }

  lemma ReasonsUnlessPass(v: Input, zone: Clock.Zone, now: Micros)
    ensures var r := Evaluate(v, zone, now);
            PolicyMatches(r) && (!r.state.Pass? ==> r.reasons != [])
  {
    hide Evidence, Failures;
  }

  lemma PassFacts(v: Input, zone: Clock.Zone, now: Micros)
    requires Evaluate(v, zone, now).state.Pass?
    ensures var r := Evaluate(v, zone, now);
            && r.reasons == [] && (forall f: Field :: f in r.metrics && r.metrics[f].asOf <= v.evaluationAt)
            && v.evaluationAt <= now <= v.evaluationAt + 120 * SECOND
            && 15 * SECOND <= v.evaluationAt - v.completedBarEnd < FIVE_MINUTES
  {
    hide Evidence, Failures, SessionReasons;
    EvidencePublished(v, zone);
    WithinTheBar(v, zone);
  }

  /** Every result meets the consumer's contract, as soon as the bar end is a whole millisecond, which is
      what the consumer's side sends; in general the one clause at stake is the five-minute bound in
      milliseconds. */
  lemma ResultMeetsContract(v: Input, zone: Clock.Zone, now: Micros)
    requires v.identity.symbolId > 0
    ensures v.completedBarEnd % 1000 == 0 ==> Accepts(Evaluate(v, zone, now))
    ensures Accepts(Evaluate(v, zone, now)) <==>
            (Evaluate(v, zone, now).state.Pass? ==> Millis(v.evaluationAt) - Millis(v.completedBarEnd) < 300000)
  {
    hide Evidence, Failures;
    ReasonsUnlessPass(v, zone, now);
    var r := Evaluate(v, zone, now);
    if r.state.Pass? {
      PassFacts(v, zone, now);
      forall f: Field ensures Millis(r.metrics[f].asOf) <= Millis(r.evaluationAt) {
        assert f in r.metrics;
      }
    }
  }

  // ------------------------------------------------------------------ only relevant bars count

  ghost predicate PriorDate(v: Input, date: int) { exists s :: s in Prior(v) && s.tradingDate == date }

  function SlotStart(v: Input, s: CalendarSession): Micros
    requires Current(v).Some?
  {
    s.open + (v.completedBarEnd - Current(v).value.open) - FIVE_MINUTES
  }

  ghost predicate SlotInstant(v: Input, t: Micros) {
    Current(v).Some? && exists s :: s in SlotSessions(v) && SlotStart(v, s) == t
  }

  /** Each relevant daily bar occurs as often in one list as in the other; so does each relevant slot bar. */
  ghost predicate SameRelevantBars(v: Input, daily: seq<DailyBar>, slots: seq<SlotBar>) {
    && (forall b: DailyBar :: PriorDate(v, b.tradingDate) ==> multiset(daily)[b] == multiset(v.dailyBars)[b])
    && (forall b: SlotBar :: SlotInstant(v, b.start) ==> multiset(slots)[b] == multiset(v.slotBars)[b])
  }

  /** Two selections with the same bars are equally long, and equal when they hold a single bar. */
  lemma SameSelection<T>(a: seq<T>, b: seq<T>)
    requires multiset(a) == multiset(b)
    ensures |a| == |b| && (|a| == 1 ==> a[0] == b[0])
  {
    assert |a| == |multiset(a)| && |b| == |multiset(b)|;
    if |a| == 1 {
      assert a == [a[0]] && b == [b[0]];
      assert b[0] in multiset(a);
    }
  }

  lemma DailyOnSame(v: Input, w: Input, date: int)
    requires PriorDate(v, date)
    requires forall b: DailyBar :: PriorDate(v, b.tradingDate) ==> multiset(w.dailyBars)[b] == multiset(v.dailyBars)[b]
    ensures multiset(DailyOn(v.dailyBars, date)) == multiset(DailyOn(w.dailyBars, date))
  {
    hide PriorDate;
    forall b ensures multiset(DailyOn(v.dailyBars, date))[b] == multiset(DailyOn(w.dailyBars, date))[b] {
      FilterMultiset(v.dailyBars, (b: DailyBar) => b.tradingDate == date, b);
      FilterMultiset(w.dailyBars, (b: DailyBar) => b.tradingDate == date, b);
    }
  }

  lemma SlotsAtSame(v: Input, w: Input, t: Micros)
    requires SlotInstant(v, t)
    requires forall b: SlotBar :: SlotInstant(v, b.start) ==> multiset(w.slotBars)[b] == multiset(v.slotBars)[b]
    ensures multiset(SlotsAt(v.slotBars, t)) == multiset(SlotsAt(w.slotBars, t))
  {
    hide SlotInstant;
    forall b ensures multiset(SlotsAt(v.slotBars, t))[b] == multiset(SlotsAt(w.slotBars, t))[b] {
      FilterMultiset(v.slotBars, (b: SlotBar) => b.start == t, b);
      FilterMultiset(w.slotBars, (b: SlotBar) => b.start == t, b);
    }
  }

  lemma {:induction false} DailyScanSame(v: Input, w: Input, sessions: seq<CalendarSession>)
    requires w == v.(dailyBars := w.dailyBars, slotBars := w.slotBars)
    requires SameRelevantBars(v, w.dailyBars, w.slotBars)
    requires forall s :: s in sessions ==> s in Prior(v)
    ensures DailyScan(v, sessions) == DailyScan(w, sessions)
  {
    hide Prior, DailyOn, PricesOk, SlotInstant;
    if sessions != [] {
      var n := |sessions| - 1;
      assert sessions[n] in Prior(v);
      DailyScanSame(v, w, sessions[..n]);
      DailyOnSame(v, w, sessions[n].tradingDate);
      SameSelection(DailyOn(v.dailyBars, sessions[n].tradingDate), DailyOn(w.dailyBars, sessions[n].tradingDate));
    }
  }

  lemma SlotStepSame(v: Input, w: Input, s: CalendarSession, end: Micros, a: seq<SlotBar>, b: seq<SlotBar>)
    requires w == v.(dailyBars := w.dailyBars, slotBars := w.slotBars)
    requires |a| == |b| && (|a| == 1 ==> a[0] == b[0])
    ensures SlotStep(v, s, end, a) == SlotStep(w, s, end, b)
  {
    hide PricesOk;
  }

  lemma {:induction false} SlotScanSame(v: Input, w: Input, sessions: seq<CalendarSession>, offset: int)
    requires w == v.(dailyBars := w.dailyBars, slotBars := w.slotBars)
    requires SameRelevantBars(v, w.dailyBars, w.slotBars)
    requires Current(v).Some? && offset == v.completedBarEnd - Current(v).value.open
    requires forall s :: s in sessions ==> s in SlotSessions(v)
    ensures SlotScan(v, sessions, offset) == SlotScan(w, sessions, offset)
  {
    hide Current, SlotSessions, SlotsAt, SlotStep, PriorDate;
    if sessions != [] {
      var n := |sessions| - 1;
      var t := sessions[n].open + offset - FIVE_MINUTES;
      assert sessions[n] in SlotSessions(v) && SlotStart(v, sessions[n]) == t;
      SlotScanSame(v, w, sessions[..n], offset);
      SlotsAtSame(v, w, t);
      SameSelection(SlotsAt(v.slotBars, t), SlotsAt(w.slotBars, t));
      SlotStepSame(v, w, sessions[n], sessions[n].open + offset, SlotsAt(v.slotBars, t), SlotsAt(w.slotBars, t));
    }
  }

  lemma SameCalendar(v: Input, w: Input, zone: Clock.Zone)
    requires w == v.(dailyBars := w.dailyBars, slotBars := w.slotBars)
    ensures Prior(v) == Prior(w) && Current(v) == Current(w)
    ensures CalendarOk(v, zone) == CalendarOk(w, zone) && BoundaryOk(v) == BoundaryOk(w)
  {
    hide FindSession, SortByKey, LocalDate;
    assert SortedSessions(v) == SortedSessions(w);
    PriorSame(v, w);
  }

  lemma SameMetadata(v: Input, w: Input)
    requires w == v.(dailyBars := w.dailyBars, slotBars := w.slotBars)
    ensures IdentityReasons(v) == IdentityReasons(w) && CapPart(v) == CapPart(w)
    ensures AdjustmentOk(v) == AdjustmentOk(w)
  {
    hide Publish, Upper, Strip, ProviderExchanges, Exchanges, Plus;
  }

  lemma SameQuote(v: Input, w: Input)
    requires w == v.(dailyBars := w.dailyBars, slotBars := w.slotBars) && Current(v) == Current(w)
    ensures QuotePart(v) == QuotePart(w)
  {
    hide Publish, Plus, Current;
  }

  lemma SameSession(v: Input, w: Input, zone: Clock.Zone)
    requires w == v.(dailyBars := w.dailyBars, slotBars := w.slotBars) && Current(v) == Current(w)
    requires CalendarOk(v, zone) == CalendarOk(w, zone) && BoundaryOk(v) == BoundaryOk(w)
    ensures SessionReasons(v, zone) == SessionReasons(w, zone)
  {
    hide CalendarOk, BoundaryOk, Current;
  }

  lemma SameFront(v: Input, w: Input, zone: Clock.Zone)
    requires w == v.(dailyBars := w.dailyBars, slotBars := w.slotBars)
    ensures FrontPart(v, zone) == FrontPart(w, zone)
  {
    hide IdentityReasons, CapPart, QuotePart, SessionReasons, AdjustmentOk, Current, Prior, CalendarOk, BoundaryOk;
    SameCalendar(v, w, zone);
    SameMetadata(v, w);
    SameQuote(v, w);
    SameSession(v, w, zone);
  }

  lemma PriorSame(v: Input, w: Input)
    requires v.calendar == w.calendar && v.tradingDate == w.tradingDate
    ensures Prior(v) == Prior(w)
  {
    FilterCongruent(SortedSessions(v), (s: CalendarSession) => s.tradingDate < v.tradingDate,
                    (s: CalendarSession) => s.tradingDate < w.tradingDate);
  }

  /** Permuting the bars, or adding and removing bars that are not dated in the prior sessions and do not
      start at an aligned slot, never changes the result. */
  lemma OnlyRelevantBarsCount(v: Input, zone: Clock.Zone, now: Micros, daily: seq<DailyBar>, slots: seq<SlotBar>)
    requires SameRelevantBars(v, daily, slots)
    ensures Evaluate(v.(dailyBars := daily, slotBars := slots), zone, now) == Evaluate(v, zone, now)
  {
    hide Prior, Current, CalendarOk, BoundaryOk, FrontPart, DailyScan, SlotScan, HistoryMetrics, SlotMetrics,
         SameRelevantBars, Failures;
    var w := v.(dailyBars := daily, slotBars := slots);
    SameCalendar(v, w, zone);
    SameFront(v, w, zone);
    DailyScanSame(v, w, Prior(v));
    if Current(v).Some? {
      SlotScanSame(v, w, SlotSessions(v), v.completedBarEnd - Current(v).value.open);
    }
  }
}
