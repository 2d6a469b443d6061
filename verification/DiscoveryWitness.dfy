/** A family of inputs that pass, and which of their results the consumer accepts. */
module DiscoveryWitness {
  import opened Lists
  import Clock
  import opened Indicators
  import opened Discovery
  import opened DiscoveryContract

  const DAY: int := 86400 * SECOND

  /** Four to six hours behind UTC all the time, as Toronto and New York are. */
  ghost predicate Eastern(zone: Clock.Zone) { forall t :: -21600 <= Clock.OffsetAt(zone, t) <= -14400 }

  // ------------------------------------------------------------------ the input

  /** Ninety-two days; each session opens `u` microseconds past 14:30 UTC and closes at 21:00. */
  function SessionOn(u: int, d: int): CalendarSession {
    CalendarSession(d, d * DAY + 52200 * SECOND + u, d * DAY + 75600 * SECOND)
  }

  function Sessions(u: int): (s: seq<CalendarSession>)
    ensures |s| == 92 && forall d :: 0 <= d < 92 ==> s[d] == SessionOn(u, d)
  {
    seq(92, d => SessionOn(u, d))
  }

  function Values(observedAt: Micros, volume: real): HistoryValues {
    HistoryValues(10.0, 11.0, 9.0, 10.0, volume, observedAt, true, Questrade, "r1")
  }

  function DailyValues(d: int): HistoryValues { Values(d * DAY + 75600 * SECOND, 2000000.0) }

  function Dailies(): (s: seq<DailyBar>)
    ensures |s| == 91 && forall d :: 0 <= d < 91 ==> s[d] == DailyBar(d, DailyValues(d))
  {
    seq(91, d => DailyBar(d, DailyValues(d)))
  }

  /** The first five minutes of a day; those of the last day are ten times as busy. */
  function SlotValues(u: int, d: int): HistoryValues {
    Values(SessionOn(u, d).open + FIVE_MINUTES, if d == 91 then 1000000.0 else 100000.0)
  }

  function SlotOn(u: int, d: int): SlotBar {
    SlotBar(SessionOn(u, d).open, SessionOn(u, d).open + FIVE_MINUTES, SlotValues(u, d))
  }

  function Slots(u: int): (s: seq<SlotBar>)
    ensures |s| == 11 && forall k :: 0 <= k < 11 ==> s[k] == SlotOn(u, 81 + k)
  {
    seq(11, k => SlotOn(u, 81 + k))
  }

  function BarEnd(u: int): Micros { SessionOn(u, 91).open + FIVE_MINUTES }

  /** The last microsecond of the bar's five minutes. */
  function At(u: int): Micros { BarEnd(u) + FIVE_MINUTES - 1 }

  function PassingInput(u: int): Input {
    Input(CaTsx, CaDiscoveryV1, "A", "TO", 91, At(u), BarEnd(u),
          Identity(CaTsx, 1, "A.TO", "TSX", Cad, CommonStockReviewed, 0, Questrade),
          Capitalization(Some(1000000000.0), Cad, 0, Questrade),
          Some(DiscoveryQuote(Some(10.0), Some(8.0), Some(At(u)), At(u), Some(false), Some(false), Regular, Questrade)),
          Calendar(CaTsx, true, 0, Sessions(u)),
          Adjustment(true, "r1", Unadjusted, false, 0),
          Dailies(), Slots(u))
  }

  // ------------------------------------------------------------------ its calendar

  lemma CalendarOf(u: int)
    requires 0 <= u < SECOND
    ensures SortedSessions(PassingInput(u)) == Sessions(u)
  {
    var s := Sessions(u);
    SortByKeySorts(s, OpenOf);
    AscendingIsUnique(s, SortByKey(s, OpenOf), OpenOf);
  }

  lemma DateOfInstant(zone: Clock.Zone, d: int, x: int)
    requires Eastern(zone) && 21600 * SECOND <= x < DAY
    ensures LocalDate(zone, d * DAY + x) == d
  {
    hide Clock.OffsetAt;
    assert (d * DAY + x) / SECOND == d * 86400 + x / SECOND;
    assert 21600 <= x / SECOND < 86400;
  }

  lemma CalendarIsOk(zone: Clock.Zone, u: int)
    requires Eastern(zone) && 0 <= u < SECOND
    ensures CalendarOk(PassingInput(u), zone)
  {
    hide LocalDate, Sessions;
    CalendarOf(u);
    forall d | 0 <= d < 92 ensures SessionOk(zone, Sessions(u), d) {
      DateOfInstant(zone, d, 52200 * SECOND + u);
      DateOfInstant(zone, d, 75600 * SECOND);
    }
  }

  lemma PriorAndCurrent(u: int)
    requires 0 <= u < SECOND
    ensures Current(PassingInput(u)) == Some(SessionOn(u, 91))
    ensures Prior(PassingInput(u)) == Sessions(u)[..91]
  {
    hide SessionOn, Sessions, SortedSessions;
    CalendarOf(u);
    DatesAreIndexes(u);
    var s := Sessions(u);
    var earlier := (c: CalendarSession) => c.tradingDate < 91;
    FilterPrefix(s, 91, earlier);
    FilterAll(s[..91], earlier);
    FilterCongruent(s, (c: CalendarSession) => c.tradingDate < PassingInput(u).tradingDate, earlier);
    assert s[91] in s;
  }

  lemma DatesAreIndexes(u: int)
    ensures forall d :: 0 <= d < 92 ==> Sessions(u)[d].tradingDate == d
  {
  }

  lemma BoundaryIsOk(zone: Clock.Zone, u: int)
    requires Eastern(zone) && 0 <= u < SECOND
    ensures BoundaryOk(PassingInput(u)) && SessionReasons(PassingInput(u), zone) == []
  {
    hide CalendarOk, Current, Sessions;
    PriorAndCurrent(u);
    CalendarIsOk(zone, u);
  }

  // ------------------------------------------------------------------ its bars

  lemma DailyBarOn(u: int, d: nat)
    requires d < 91
    ensures DailyOn(PassingInput(u).dailyBars, d) == [DailyBar(d, DailyValues(d))]
  {
    FilterSingle(Dailies(), d, (b: DailyBar) => b.tradingDate == d);
  }

  lemma BarIsValid(u: int, observedAt: Micros, volume: real)
    requires observedAt <= At(u) && volume >= 0.0
    ensures BarReasons(PassingInput(u), Values(observedAt, volume), observedAt) == []
  {
    hide Sessions, Dailies, Slots;
  }

  lemma DayAccepted(u: int, d: nat)
    requires 0 <= u < SECOND && d < 91
    ensures var v := PassingInput(u);
            DailyStep(v, SessionOn(u, d), DailyOn(v.dailyBars, d)) == Scan([], [DailyValues(d)])
  {
    hide BarReasons, DailyOn, Dailies, Slots, Sessions;
    DailyBarOn(u, d);
    BarIsValid(u, d * DAY + 75600 * SECOND, 2000000.0);
  }

  lemma {:induction false} HistoryOf(u: int, n: nat)
    requires 0 <= u < SECOND && n <= 91
    ensures DailyScan(PassingInput(u), Sessions(u)[..n]) == Scan([], seq(n, d => DailyValues(d)))
  {
    hide DailyStep, DailyOn, DailyValues, Sessions, PassingInput;
    if n > 0 {
      HistoryOf(u, n - 1);
      DayAccepted(u, n - 1);
      assert Sessions(u)[..n][..n - 1] == Sessions(u)[..n - 1];
      assert Sessions(u)[..n][n - 1] == SessionOn(u, n - 1);
    }
  }

  lemma SlotBarOn(u: int, d: int)
    requires 81 <= d < 92
    ensures SlotsAt(PassingInput(u).slotBars, SessionOn(u, d).open) == [SlotOn(u, d)]
  {
    FilterSingle(Slots(u), d - 81, (b: SlotBar) => b.start == SessionOn(u, d).open);
  }

  lemma SlotAccepted(u: int, d: int)
    requires 0 <= u < SECOND && 81 <= d < 92
    ensures var v, s := PassingInput(u), SessionOn(u, d);
            SlotStep(v, s, s.open + FIVE_MINUTES, SlotsAt(v.slotBars, s.open)) == Scan([], [SlotValues(u, d)])
  {
    hide BarReasons, SlotsAt, Dailies, Slots, Sessions;
    SlotBarOn(u, d);
    BarIsValid(u, SessionOn(u, d).open + FIVE_MINUTES, if d == 91 then 1000000.0 else 100000.0);
  }

  lemma {:induction false} SlotsOf(u: int, n: nat)
    requires 0 <= u < SECOND && n <= 11
    ensures SlotScan(PassingInput(u), Sessions(u)[81..81 + n], FIVE_MINUTES) ==
            Scan([], seq(n, k => SlotValues(u, 81 + k)))
  {
    hide SlotStep, SlotsAt, SlotValues, Sessions, PassingInput, SessionOn;
    if n > 0 {
      SlotsOf(u, n - 1);
      SlotAccepted(u, 80 + n);
      assert Sessions(u)[81..81 + n][..n - 1] == Sessions(u)[81..80 + n];
      assert Sessions(u)[81..81 + n][n - 1] == SessionOn(u, 80 + n);
    }
  }

  // ------------------------------------------------------------------ its metrics

  lemma {:induction false} PowersGrow(a: nat, b: nat)
    requires a <= b
    ensures Pow2(a) <= Pow2(b) && Pow2(a) >= 1.0
    decreases b
  {
    if a < b {
      PowersGrow(a, b - 1);
    } else if a > 0 {
      PowersGrow(a - 1, a - 1);
    }
  }

  lemma BillionsAreFinite(x: real)
    requires Abs(x) <= 1000000000.0
    ensures FiniteDouble(x)
  {
    hide Pow2;
    PowersGrow(971, 1024);
    PowersGrow(30, 970);
    Doubles(970);
    MoreThanABillion();
  }

  lemma Doubles(n: nat)
    ensures Pow2(n + 1) == 2.0 * Pow2(n)
  {
  }

  lemma MoreThanABillion()
    ensures Pow2(30) > 1000000000.0
  {
    assert Pow2(5) == 32.0 && Pow2(10) == 1024.0 && Pow2(15) == 32768.0;
    assert Pow2(20) == 1048576.0 && Pow2(25) == 33554432.0;
  }

  lemma IdentityPasses(u: int)
    requires 0 <= u < SECOND
    ensures IdentityReasons(PassingInput(u)) == [] && AdjustmentOk(PassingInput(u))
    ensures CapPart(PassingInput(u)) == Work([], map[MarketCap := Metric(1000000000.0, 0)])
  {
    hide FiniteDouble, Sessions, Dailies, Slots;
    BillionsAreFinite(1000000000.0);
    assert Strip("TO") == "TO" && Upper("TO") == "TO" by {
      assert "TO"[1..] == "O" && "O"[1..] == "";
      assert Upper("O") == "O";
    }
    assert "A" + ".TO" == "A.TO";
  }

  lemma QuoteHasNoReasons(u: int)
    requires 0 <= u < SECOND
    ensures PassingInput(u).quote.Some? && QuoteReasons(PassingInput(u), PassingInput(u).quote.value) == []
  {
    hide Sessions, Dailies, Slots, Current;
    PriorAndCurrent(u);
  }

  lemma QuotePasses(u: int)
    requires 0 <= u < SECOND
    ensures QuotePart(PassingInput(u)) ==
            Work([], map[Price := Metric(10.0, At(u)), ChangeFromOpenPct := Metric(25.0, At(u))])
  {
    hide Publish, QuoteReasons, Sessions, Dailies, Slots, At, BarEnd;
    QuoteHasNoReasons(u);
    Publishes(Price, 10.0, At(u));
    Publishes(ChangeFromOpenPct, 25.0, At(u));
  }

  lemma FrontPasses(zone: Clock.Zone, u: int)
    requires Eastern(zone) && 0 <= u < SECOND
    ensures var w := FrontPart(PassingInput(u), zone);
            && w.reasons == [] && w.metrics.Keys == {MarketCap, Price, ChangeFromOpenPct}
            && w.metrics[MarketCap].value == 1000000000.0 && w.metrics[Price] == Metric(10.0, At(u))
            && w.metrics[ChangeFromOpenPct].value == 25.0
  {
    hide IdentityReasons, CapPart, QuotePart, SessionReasons, AdjustmentOk, PassingInput;
    IdentityPasses(u);
    QuotePasses(u);
    BoundaryIsOk(zone, u);
  }

  function History(): (h: seq<HistoryValues>)
    ensures |h| == 91 && forall d :: 0 <= d < 91 ==> h[d] == DailyValues(d)
  {
    seq(91, d => DailyValues(d))
  }

  lemma HistoryVolume(n: nat)
    requires 0 < n <= 91
    ensures MeanVolume(History(), n) == 2000000.0
  {
    var volumes := Map(LastOf(History(), n), VolumeOf);
    SumConstant(volumes, 2000000.0);
    hide Sum, History;
    Divided(2000000.0, n as real);
  }

  lemma Divided(x: real, n: real)
    requires n != 0.0
    ensures x * n / n == x
  {
  }

  lemma HistoryRange()
    ensures HistoryAtr(History()) == 2.0
  {
    hide Wilder;
    var bars := Map(History(), OhlcOf);
    var ranges := TrueRanges(bars);
    assert |ranges| == 90;
    forall i | 0 <= i < 90 ensures ranges[i] == 2.0 {
      TrueRangesAt(bars, i);
    }
    WilderWithinRanges(ranges, 14, 90, 2.0, 2.0);
  }

  /** What the history publishes: as of `t` what it shows itself, as of `combined` what the price enters. */
  function Figures(t: Micros, combined: Micros): Metrics {
    map[AverageVolume90d := Metric(2000000.0, t), AverageVolume30d := Metric(2000000.0, t), Atr14d := Metric(2.0, t),
        AtrPct := Metric(20.0, combined), DollarVolume30d := Metric(20000000.0, combined)]
  }

  lemma HistoryFigured(at: Micros)
    ensures exists t, combined :: HistoryMetrics(History(), Some(Metric(10.0, at))) == Work([], Figures(t, combined))
  {
    hide Plus, VolumeAndRange, Priced, HistoryAtr, LatestOf, History, ObservedAt, Figures;
    HistoryRange();
    var t := LatestOf(Map(History(), ObservedAt));
    var combined := if t < at then at else t;
    BaseFigured(t);
    PricedFigured(t, at);
    FiguresTogether(t, combined);
    assert ValueIn(VolumeAndRange(History(), t).metrics, AverageVolume30d) == Some(2000000.0);
    assert HistoryMetrics(History(), Some(Metric(10.0, at))) == Work([], Figures(t, combined));
  }

  lemma FiguresTogether(t: Micros, combined: Micros)
    ensures Plus(Work([], map[AverageVolume90d := Metric(2000000.0, t), AverageVolume30d := Metric(2000000.0, t),
                              Atr14d := Metric(2.0, t)]),
                 Work([], map[AtrPct := Metric(20.0, combined), DollarVolume30d := Metric(20000000.0, combined)])) ==
            Work([], Figures(t, combined))
  {
  }

  lemma Publishes(field: Field, x: real, at: Micros)
    requires Abs(x) <= 1000000000.0
    ensures Publish(field, x, at) == Work([], map[field := Metric(x, at)])
  {
    hide FiniteDouble;
    BillionsAreFinite(x);
  }

  lemma BaseFigured(t: Micros)
    ensures VolumeAndRange(History(), t) ==
            Work([], map[AverageVolume90d := Metric(2000000.0, t), AverageVolume30d := Metric(2000000.0, t),
                         Atr14d := Metric(2.0, t)])
  {
    hide Publish, MeanVolume, HistoryAtr, History;
    HistoryVolume(90);
    HistoryVolume(30);
    HistoryRange();
    Publishes(AverageVolume90d, 2000000.0, t);
    Publishes(AverageVolume30d, 2000000.0, t);
    Publishes(Atr14d, 2.0, t);
  }

  lemma PricedFigured(t: Micros, at: Micros)
    ensures var combined := if t < at then at else t;
            Priced(2.0, Some(2000000.0), t, Metric(10.0, at)) ==
            Work([], map[AtrPct := Metric(20.0, combined), DollarVolume30d := Metric(20000000.0, combined)])
  {
    hide Publish;
    var combined := if t < at then at else t;
    Publishes(AtrPct, 20.0, combined);
    Publishes(DollarVolume30d, 20000000.0, combined);
  }

  lemma HistoryPasses(zone: Clock.Zone, u: int)
    requires Eastern(zone) && 0 <= u < SECOND
    ensures HistoryPart(PassingInput(u), zone, Some(Metric(10.0, At(u)))) ==
            HistoryMetrics(History(), Some(Metric(10.0, At(u))))
  {
    hide HistoryMetrics, CalendarOk, Prior, DailyScan, PassingInput, DailyValues, Sessions, At;
    PriorAndCurrent(u);
    CalendarIsOk(zone, u);
    HistoryOf(u, 91);
    assert Sessions(u)[..91][..91] == Sessions(u)[..91];
    assert ScannedHistory(PassingInput(u), zone) == Scan([], History());
    var w := HistoryMetrics(History(), Some(Metric(10.0, At(u))));
    assert Plus(Work([], map[]), w) == w;
  }

  function Volumes(u: int): (h: seq<HistoryValues>)
    ensures |h| == 11 && forall k :: 0 <= k < 11 ==> h[k] == SlotValues(u, 81 + k)
  {
    seq(11, k => SlotValues(u, 81 + k))
  }

  lemma SlotFigure(u: int)
    ensures SlotMetrics(Volumes(u)).reasons == [] && SlotMetrics(Volumes(u)).metrics.Keys == {RelVolume}
    ensures SlotMetrics(Volumes(u)).metrics[RelVolume].value == 10.0
  {
    hide FiniteDouble, LatestOf;
    var earlier := Map(Volumes(u)[..10], VolumeOf);
    SumConstant(earlier, 100000.0);
    assert Sum(earlier) / 10.0 == 100000.0;
    BillionsAreFinite(10.0);
  }

  lemma SlotsPass(zone: Clock.Zone, u: int)
    requires Eastern(zone) && 0 <= u < SECOND
    ensures var w := SlotPart(PassingInput(u), zone);
            w.reasons == [] && w.metrics.Keys == {RelVolume} && w.metrics[RelVolume].value == 10.0
  {
    hide CalendarOk, Prior, Current, BoundaryOk, SlotScan, SlotMetrics, Sessions;
    PriorAndCurrent(u);
    CalendarIsOk(zone, u);
    BoundaryIsOk(zone, u);
    SlotsOf(u, 11);
    SlotFigure(u);
    assert SlotSessions(PassingInput(u)) == Sessions(u)[81..81 + 11];
  }

  /** The input passes, for whichever fraction of a second its session opens at. */
  lemma InputPasses(zone: Clock.Zone, u: int)
    requires Eastern(zone) && 0 <= u < SECOND
    ensures Evaluate(PassingInput(u), zone, At(u)).state.Pass?
  {
    hide FrontPart, HistoryPart, HistoryMetrics, SlotPart, PassingInput, Failures, Figures;
    FrontPasses(zone, u);
    HistoryPasses(zone, u);
    HistoryFigured(At(u));
    SlotsPass(zone, u);
    var v := PassingInput(u);
    var t, combined :| HistoryPart(v, zone, Some(Metric(10.0, At(u)))) == Work([], Figures(t, combined));
    var front, slots := FrontPart(v, zone).metrics, SlotPart(v, zone).metrics;
    NoFailures(front, Figures(t, combined), slots);
    MarketAndTime(u);
  }

  lemma NoFailures(front: Metrics, figures: Metrics, slots: Metrics)
    requires front.Keys == {MarketCap, Price, ChangeFromOpenPct} && slots.Keys == {RelVolume}
    requires front[MarketCap].value == 1000000000.0 && front[Price].value == 10.0
    requires front[ChangeFromOpenPct].value == 25.0 && slots[RelVolume].value == 10.0
    requires exists t, combined :: figures == Figures(t, combined)
    ensures Failures(CaTsx, front + figures + slots) == []
  {
  }

  lemma MarketAndTime(u: int)
    ensures PassingInput(u).market == CaTsx && PassingInput(u).evaluationAt == At(u)
  {
  }

  /** Its result is accepted exactly when the bar ends on a whole millisecond; otherwise the consumer counts
      the full five minutes. */
  lemma AcceptedOnWholeMilliseconds(zone: Clock.Zone, u: int)
    requires Eastern(zone) && 0 <= u < SECOND
    ensures var r := Evaluate(PassingInput(u), zone, At(u));
            && r.state.Pass?
            && (Accepts(r) <==> u % 1000 == 0)
            && (u % 1000 != 0 ==> Millis(r.evaluationAt) - Millis(r.completedBarEnd) == 300000)
  {
    hide Evaluate, Accepts, Sessions, Dailies, Slots;
    InputPasses(zone, u);
    ResultMeetsContract(PassingInput(u), zone, At(u));
    ResultKeepsTimes(PassingInput(u), zone, At(u));
    assert BarEnd(u) / 1000 == (91 * DAY + 52500 * SECOND) / 1000 + u / 1000;
  }

  lemma ResultKeepsTimes(v: Input, zone: Clock.Zone, now: Micros)
    ensures Evaluate(v, zone, now).evaluationAt == v.evaluationAt
    ensures Evaluate(v, zone, now).completedBarEnd == v.completedBarEnd
  {
    hide Evidence, Failures;
  }
}
