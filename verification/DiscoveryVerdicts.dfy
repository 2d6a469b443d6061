/** Which verdict a discovery evaluation comes to and from what: the policy of each market in figures, the evidence
    it is applied to, and the figures of that evidence, said of the input alone
    (services/scanner/app/discovery.py:17-294). */
module DiscoveryVerdicts {
  import opened Lists
  import Clock
  import opened Indicators
  import IndicatorLaws
  import opened Discovery
  import opened DiscoveryContract
  import opened DiscoveryReasons

  // ------------------------------------------------------------------ the policy

  /** A figure that is published breaks its rule. */
  predicate Breaks(m: Market, f: Metrics, x: Reason) {
    match x
    case PriceOutOfRange =>
      Price in f && (if m == CaTsx then f[Price].value < 5.0 || 150.0 < f[Price].value
                     else f[Price].value < 10.0 || 200.0 < f[Price].value)
    case MarketCapThreshold =>
      MarketCap in f && f[MarketCap].value <= (if m == CaTsx then 400000000.0 else 1000000000.0)
    case AverageVolumeThreshold =>
      AverageVolume90d in f && f[AverageVolume90d].value <= (if m == CaTsx then 400000.0 else 1000000.0)
    case AtrThreshold => AtrPct in f && f[AtrPct].value <= (if m == CaTsx then 1.5 else 2.0)
    case RelativeVolumeThreshold => RelVolume in f && f[RelVolume].value <= (if m == CaTsx then 1.5 else 1.75)
    case ChangeFromOpenThreshold =>
      ChangeFromOpenPct in f && f[ChangeFromOpenPct].value <= (if m == CaTsx then 0.75 else 1.0)
    case DollarVolumeThreshold =>
      DollarVolume30d in f && f[DollarVolume30d].value <= (if m == CaTsx then 15000000.0 else 50000000.0)
    case _ => false
  }

  predicate Exceeds(f: Metrics, field: Field, x: real) { field in f && x < f[field].value }

  /** The market's bounds on the price, and what each of the six figures must exceed. */
  predicate MeetsPolicy(m: Market, f: Metrics) {
    match m
    case CaTsx =>
      && Price in f && 5.0 <= f[Price].value <= 150.0
      && Exceeds(f, MarketCap, 400000000.0) && Exceeds(f, AverageVolume90d, 400000.0) && Exceeds(f, AtrPct, 1.5)
      && Exceeds(f, RelVolume, 1.5) && Exceeds(f, ChangeFromOpenPct, 0.75) && Exceeds(f, DollarVolume30d, 15000000.0)
    case UsEquities =>
      && Price in f && 10.0 <= f[Price].value <= 200.0
      && Exceeds(f, MarketCap, 1000000000.0) && Exceeds(f, AverageVolume90d, 1000000.0) && Exceeds(f, AtrPct, 2.0)
      && Exceeds(f, RelVolume, 1.75) && Exceeds(f, ChangeFromOpenPct, 1.0) && Exceeds(f, DollarVolume30d, 50000000.0)
  }

  predicate IsThreshold(x: Reason) {
    x in {PriceOutOfRange, MarketCapThreshold, AverageVolumeThreshold, AtrThreshold, RelativeVolumeThreshold,
          ChangeFromOpenThreshold, DollarVolumeThreshold}
  }

  lemma FailuresListed(m: Market, f: Metrics)
    ensures Failures(m, f) ==
            When(Breaks(m, f, PriceOutOfRange), PriceOutOfRange) +
            When(Breaks(m, f, MarketCapThreshold), MarketCapThreshold) +
            When(Breaks(m, f, AverageVolumeThreshold), AverageVolumeThreshold) +
            When(Breaks(m, f, AtrThreshold), AtrThreshold) +
            When(Breaks(m, f, RelativeVolumeThreshold), RelativeVolumeThreshold) +
            When(Breaks(m, f, ChangeFromOpenThreshold), ChangeFromOpenThreshold) +
            When(Breaks(m, f, DollarVolumeThreshold), DollarVolumeThreshold)
  {
    hide When;
  }

  lemma FailuresExactly(m: Market, f: Metrics, x: Reason)
    ensures x in Failures(m, f) <==> Breaks(m, f, x)
    ensures Breaks(m, f, x) ==> IsThreshold(x)
  {
    FailuresListed(m, f);
    assert Breaks(m, f, x) ==> IsThreshold(x);
    hide When, Failures, Breaks;
    Raised8(x, Breaks(m, f, PriceOutOfRange), PriceOutOfRange, Breaks(m, f, MarketCapThreshold), MarketCapThreshold,
            Breaks(m, f, AverageVolumeThreshold), AverageVolumeThreshold, Breaks(m, f, AtrThreshold), AtrThreshold,
            Breaks(m, f, RelativeVolumeThreshold), RelativeVolumeThreshold,
            Breaks(m, f, ChangeFromOpenThreshold), ChangeFromOpenThreshold,
            Breaks(m, f, DollarVolumeThreshold), DollarVolumeThreshold, false, DollarVolumeThreshold);
    NoneRaised(DollarVolumeThreshold);
  }

  lemma NoneRaised(y: Reason)
    ensures When(false, y) == []
  {
  }

  // ------------------------------------------------------------------ no evidence reason is a threshold

  predicate AboutBars(x: Reason) { x in {DuplicateBar, InvalidBar, FutureObservation, AdjustmentUnverified} }

  lemma DailyStepReasons(v: Input, s: CalendarSession, bars: seq<DailyBar>, x: Reason)
    requires x in DailyStep(v, s, bars).reasons
    ensures AboutBars(x)
  {
    hide BarReasons, BarFault;
    if |bars| == 1 { BarReasonsExactly(v, bars[0].values, s.close, x); }
    BarFaults(v, if |bars| == 1 then bars[0].values else HistoryValues(0.0, 0.0, 0.0, 0.0, 0.0, 0, true, Questrade, ""),
              s.close, x);
  }

  lemma BarFaults(v: Input, bar: HistoryValues, end: Micros, x: Reason)
    ensures BarFault(v, bar, end, x) ==> AboutBars(x)
  {
  }

  lemma {:induction false} DailyScanReasons(v: Input, sessions: seq<CalendarSession>, x: Reason)
    requires x in DailyScan(v, sessions).reasons
    ensures AboutBars(x)
  {
    hide DailyStep, DailyOn, AboutBars;
    if sessions != [] {
      var n := |sessions| - 1;
      var bars := DailyOn(v.dailyBars, sessions[n].tradingDate);
      if x in DailyScan(v, sessions[..n]).reasons {
        DailyScanReasons(v, sessions[..n], x);
      } else {
        DailyStepReasons(v, sessions[n], bars, x);
      }
    }
  }

  lemma SlotStepReasons(v: Input, s: CalendarSession, end: Micros, bars: seq<SlotBar>, x: Reason)
    requires x in SlotStep(v, s, end, bars).reasons
    ensures AboutBars(x)
  {
    hide BarReasons, BarFault;
    if |bars| == 1 {
      BarReasonsExactly(v, bars[0].values, end, x);
      BarFaults(v, bars[0].values, end, x);
    }
  }

  lemma {:induction false} SlotScanReasons(v: Input, sessions: seq<CalendarSession>, offset: int, x: Reason)
    requires x in SlotScan(v, sessions, offset).reasons
    ensures AboutBars(x)
  {
    hide SlotStep, SlotsAt, AboutBars;
    if sessions != [] {
      var n := |sessions| - 1;
      if x in SlotScan(v, sessions[..n], offset).reasons {
        SlotScanReasons(v, sessions[..n], offset, x);
      } else {
        var end := sessions[n].open + offset;
        SlotStepReasons(v, sessions[n], end, SlotsAt(v.slotBars, end - FIVE_MINUTES), x);
      }
    }
  }

  lemma OnlyInvalid(h: seq<HistoryValues>, price: Option<Metric>, x: Reason)
    requires |h| == 91 && x in HistoryMetrics(h, price).reasons
    ensures x == InvalidBar
  {
    hide MeanVolume, HistoryAtr, LatestOf, FiniteDouble, PercentOf, Turnover;
  }

  lemma HistoryReasons(v: Input, zone: Clock.Zone, price: Option<Metric>, x: Reason)
    requires x in HistoryPart(v, zone, price).reasons
    ensures AboutBars(x) || x == InsufficientDailyHistory
  {
    hide CalendarOk, Prior, DailyScan, HistoryMetrics;
    var scan := ScannedHistory(v, zone);
    if x in scan.reasons { DailyScanReasons(v, Prior(v), x); }
    if |scan.accepted| == 91 && x in HistoryMetrics(scan.accepted, price).reasons {
      OnlyInvalid(scan.accepted, price, x);
    }
  }

  lemma SlotReasons(v: Input, zone: Clock.Zone, x: Reason)
    requires x in SlotPart(v, zone).reasons
    ensures AboutBars(x) || x == InsufficientSlotHistory || x == ZeroSlotBaseline
  {
    hide CalendarOk, Prior, Current, BoundaryOk, SlotScan, FiniteDouble, LatestOf, Sum, SlotSessions;
    if SlotsApply(v, zone) {
      var offset := v.completedBarEnd - Current(v).value.open;
      if x in SlotScan(v, SlotSessions(v), offset).reasons { SlotScanReasons(v, SlotSessions(v), offset, x); }
    }
  }

  lemma FrontListed(v: Input, zone: Clock.Zone, x: Reason)
    requires x in FrontPart(v, zone).reasons
    ensures || x in IdentityReasons(v) || x in CapPart(v).reasons || x == AdjustmentUnverified
            || x in SessionReasons(v, zone) || x in QuotePart(v).reasons
  {
    hide IdentityReasons, CapPart, SessionReasons, QuotePart, AdjustmentOk;
  }

  lemma QuotePartListed(v: Input, x: Reason)
    requires x in QuotePart(v).reasons
    ensures x == QuoteUnavailable || x == InvalidBar || (v.quote.Some? && x in QuoteReasons(v, v.quote.value))
  {
    hide QuoteReasons, FiniteDouble, ChangePct;
  }

  lemma FrontReasons(v: Input, zone: Clock.Zone, x: Reason)
    requires x in FrontPart(v, zone).reasons
    ensures !IsThreshold(x)
  {
    hide FrontPart, IdentityReasons, CapPart, QuotePart, QuoteReasons, SessionReasons, IdentityFault, SessionFault,
         QuoteFault;
    FrontListed(v, zone, x);
    IdentityReasonsExactly(v, x);
    SessionReasonsExactly(v, zone, x);
    FrontFaults(v, zone, x);
    CapReasonsExactly(v);
    if x in QuotePart(v).reasons { QuotePartListed(v, x); }
    if v.quote.Some? {
      QuoteReasonsExactly(v, v.quote.value, x);
      QuoteFaults(v, v.quote.value, x);
    }
  }

  lemma QuoteFaults(v: Input, q: DiscoveryQuote, x: Reason)
    ensures QuoteFault(v, q, x) ==> !IsThreshold(x)
  {
  }

  lemma FrontFaults(v: Input, zone: Clock.Zone, x: Reason)
    ensures IdentityFault(v, x) || SessionFault(v, zone, x) ==> !IsThreshold(x)
  {
  }

  lemma EvidenceReasons(v: Input, zone: Clock.Zone, x: Reason)
    requires x in Evidence(v, zone).reasons
    ensures !IsThreshold(x)
  {
    hide FrontPart, HistoryPart, SlotPart;
    var front := FrontPart(v, zone);
    if x in front.reasons { FrontReasons(v, zone, x); }
    if x in HistoryPart(v, zone, PublishedPrice(front)).reasons { HistoryReasons(v, zone, PublishedPrice(front), x); }
    if x in SlotPart(v, zone).reasons { SlotReasons(v, zone, x); }
  }

  // ------------------------------------------------------------------ the verdict

  predicate Timely(v: Input, now: Micros) { v.evaluationAt <= now <= v.evaluationAt + 120 * SECOND }

  lemma PolicyMet(m: Market, f: Metrics)
    requires forall field: Field :: field in f
    ensures MeetsPolicy(m, f) <==> Failures(m, f) == []
  {
    var failures := Failures(m, f);
    if failures != [] {
      FailuresExactly(m, f, failures[0]);
    }
    forall x | Breaks(m, f, x) ensures failures != [] {
      FailuresExactly(m, f, x);
    }
    hide Failures;
    if !MeetsPolicy(m, f) { SomethingBreaks(m, f); }
  }

  lemma SomethingBreaks(m: Market, f: Metrics)
    requires (forall field: Field :: field in f) && !MeetsPolicy(m, f)
    ensures exists x :: Breaks(m, f, x)
  {
    assert || Breaks(m, f, PriceOutOfRange) || Breaks(m, f, MarketCapThreshold) || Breaks(m, f, AverageVolumeThreshold)
           || Breaks(m, f, AtrThreshold) || Breaks(m, f, RelativeVolumeThreshold)
           || Breaks(m, f, ChangeFromOpenThreshold) || Breaks(m, f, DollarVolumeThreshold);
  }

  /** A timely evaluation passes exactly when the evidence is without reasons and meets the market's policy, and fails
      exactly when it is without reasons and does not. */
  lemma VerdictExactly(v: Input, zone: Clock.Zone, now: Micros)
    requires Timely(v, now)
    ensures var r, w := Evaluate(v, zone, now), Evidence(v, zone);
            && r.metrics == w.metrics
            && (r.state == Pass <==> w.reasons == [] && MeetsPolicy(v.market, r.metrics))
            && (r.state == Fail <==> w.reasons == [] && !MeetsPolicy(v.market, r.metrics))
            && (r.state == Unevaluable <==> w.reasons != [])
  {
    EvidencePublished(v, zone);
    hide Evidence, MeetsPolicy, Failures;
    var w := Evidence(v, zone);
    if w.reasons == [] { PolicyMet(v.market, w.metrics); }
  }

  /** And each threshold reason is listed exactly for its own breach. */
  lemma ThresholdReasonsExactly(v: Input, zone: Clock.Zone, now: Micros, x: Reason)
    requires Timely(v, now) && IsThreshold(x)
    ensures x in Evaluate(v, zone, now).reasons <==> Breaks(v.market, Evaluate(v, zone, now).metrics, x)
  {
    hide Evidence, Breaks, Failures;
    var w := Evidence(v, zone);
    if x in w.reasons { EvidenceReasons(v, zone, x); }
    FailuresExactly(v.market, w.metrics, x);
  }

  /** An evaluation before its time is unevaluable, one too late deferred, each with that one reason. */
  lemma UntimelyExactly(v: Input, zone: Clock.Zone, now: Micros)
    ensures Evaluate(v, zone, now).state == Deferred <==> v.evaluationAt + 120 * SECOND < now
    ensures now < v.evaluationAt ==>
      Evaluate(v, zone, now).state == Unevaluable && Evaluate(v, zone, now).reasons == [FutureObservation]
    ensures v.evaluationAt + 120 * SECOND < now ==> Evaluate(v, zone, now).reasons == [EvaluationExpired]
    ensures !Timely(v, now) ==> Evaluate(v, zone, now).metrics == map[]
  {
    hide Evidence, Failures;
    OneReason(FutureObservation);
    OneReason(EvaluationExpired);
  }

  lemma OneReason(x: Reason)
    ensures WithoutRepeats([x]) == [x]
  {
    assert [x][..0] == [];
  }
}
