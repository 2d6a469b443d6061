/** The evaluator as it runs: it appends to its reasons, publishes its metrics and loops over the calendar,
    the bars and the true ranges (services/scanner/app/discovery.py:35-294). */
module DiscoveryEvaluator {
  import opened Lists
  import Clock
  import opened Candles
  import opened Indicators
  import opened Discovery
  import opened DiscoveryContract

  // ------------------------------------------------------------------ calendar

  function DateOf(s: CalendarSession): int { s.tradingDate }

  lemma {:induction false} DistinctByCount(dates: seq<int>)
    ensures |set d | d in dates| <= |dates|
    ensures |set d | d in dates| == |dates| <==> forall i, j :: 0 <= i < j < |dates| ==> dates[i] != dates[j]
  {
    if dates != [] {
      var rest := dates[1..];
      DistinctByCount(rest);
      assert (set d | d in dates) == (set d | d in rest) + {dates[0]};
      if dates[0] in rest {
        var j :| 0 <= j < |rest| && rest[j] == dates[0];
        assert dates[0] == dates[j + 1];
        assert (set d | d in dates) == (set d | d in rest);
      } else {
        assert forall j :: 0 < j < |dates| ==> dates[j] == rest[j - 1];
      }
    }
  }

  method VerifyCalendar(v: Input, zone: Clock.Zone) returns (ok: bool)
    ensures ok == CalendarOk(v, zone)
  {
    hide LocalDate, SortedSessions, SessionOk;
    var sessions := SortedSessions(v);
    var dates := Map(sessions, DateOf);
    DistinctByCount(dates);
    assert forall i :: 0 <= i < |sessions| ==> dates[i] == sessions[i].tradingDate;
    ok := v.calendar.verified && |set d | d in dates| == |dates|;
    ghost var before := ok;
    for index := 0 to |sessions|
      invariant ok <==> before && forall i :: 0 <= i < index ==> SessionOk(zone, sessions, i)
    {
      var good := VerifySession(zone, sessions, index);
      ok := ok && good;
    }
  }

  method VerifySession(zone: Clock.Zone, sessions: seq<CalendarSession>, index: nat) returns (ok: bool)
    requires index < |sessions|
    ensures ok == SessionOk(zone, sessions, index)
  {
    hide LocalDate;
    var session := sessions[index];
    ok := true;
    if session.open >= session.close || LocalDate(zone, session.open) != session.tradingDate ||
       LocalDate(zone, session.close) != session.tradingDate {
      ok := false;
    }
    if index > 0 && sessions[index - 1].close >= session.open {
      ok := false;
    }
  }

  // ------------------------------------------------------------------ bars

  method ValidateBar(v: Input, bar: HistoryValues, end: Micros) returns (reasons: seq<Reason>, valid: bool)
    ensures reasons == BarReasons(v, bar, end) && (valid <==> reasons == [])
  {
    hide PricesOk, AdjustmentOk;
    reasons := When(!bar.complete || bar.observedAt < end, InvalidBar);
    reasons := reasons + When(bar.observedAt > v.evaluationAt || end > v.evaluationAt, FutureObservation);
    reasons := reasons + When(!PricesOk(bar), InvalidBar);
    reasons := reasons + When(bar.source != v.identity.source || bar.adjustmentRevision != v.adjustment.revision ||
                              !AdjustmentOk(v), AdjustmentUnverified);
    valid := reasons == [];
  }

  method ScanDaily(v: Input, prior: seq<CalendarSession>) returns (reasons: seq<Reason>, history: seq<HistoryValues>)
    ensures Scan(reasons, history) == DailyScan(v, prior)
  {
    hide BarReasons, DailyOn;
    reasons, history := [], [];
    for n := 0 to |prior|
      invariant Scan(reasons, history) == DailyScan(v, prior[..n])
    {
      var session := prior[n];
      assert prior[..n + 1][..n] == prior[..n] && prior[..n + 1][n] == session;
      ghost var before := Scan(reasons, history);
      var bars := DailyOn(v.dailyBars, session.tradingDate);
      if |bars| > 1 {
        reasons := reasons + [DuplicateBar];
      }
      if |bars| == 1 && bars[0].values.complete {
        var problems, valid := ValidateBar(v, bars[0].values, session.close);
        reasons := reasons + problems;
        if valid {
          history := history + [bars[0].values];
        }
      }
      assert Scan(reasons, history) == Scan(before.reasons + DailyStep(v, session, bars).reasons,
                                            before.accepted + DailyStep(v, session, bars).accepted);
    }
    assert prior[..|prior|] == prior;
  }

  method ScanSlots(v: Input, sessions: seq<CalendarSession>, offset: int)
    returns (reasons: seq<Reason>, accepted: seq<HistoryValues>)
    ensures Scan(reasons, accepted) == SlotScan(v, sessions, offset)
  {
    hide BarReasons, SlotsAt;
    reasons, accepted := [], [];
    for n := 0 to |sessions|
      invariant Scan(reasons, accepted) == SlotScan(v, sessions[..n], offset)
    {
      var session := sessions[n];
      assert sessions[..n + 1][..n] == sessions[..n] && sessions[..n + 1][n] == session;
      ghost var before := Scan(reasons, accepted);
      var end := session.open + offset;
      var bars := SlotsAt(v.slotBars, end - FIVE_MINUTES);
      if |bars| > 1 {
        reasons := reasons + [DuplicateBar];
      }
      if end <= session.close && |bars| == 1 {
        if bars[0].end != end {
          reasons := reasons + [InvalidBar];
        } else {
          var problems, valid := ValidateBar(v, bars[0].values, end);
          reasons := reasons + problems;
          if valid {
            accepted := accepted + [bars[0].values];
          }
        }
      }
      assert Scan(reasons, accepted) == Scan(before.reasons + SlotStep(v, session, end, bars).reasons,
                                             before.accepted + SlotStep(v, session, end, bars).accepted);
    }
    assert sessions[..|sessions|] == sessions;
  }

  // ------------------------------------------------------------------ true range

  method SmoothRanges(history: seq<HistoryValues>) returns (atr: real)
    requires |history| >= 15
    ensures atr == HistoryAtr(history)
  {
    hide Ranges;
    var ranges := Ranges(history);
    RangesLength(history);
    atr := Sum(ranges[..14]) / 14.0;
    for n := 14 to |ranges|
      invariant atr == Wilder(ranges, 14, n)
    {
      atr := (atr * 13.0 + ranges[n]) / 14.0;
    }
  }

  lemma RangesLength(history: seq<HistoryValues>)
    requires history != []
    ensures |Ranges(history)| == |history| - 1
  {
  }

  /** The feature engine's average true range and the evaluator's agree on the same bars. */
  lemma AtrAgrees(daily: seq<Candle>, history: seq<HistoryValues>)
    requires |daily| == |history| >= 15
    requires forall i :: 0 <= i < |daily| ==>
               daily[i].high == history[i].high && daily[i].low == history[i].low && daily[i].close == history[i].close
    ensures Atr14(daily) == Some(HistoryAtr(history))
  {
    assert Bars(daily) == Map(history, OhlcOf);
  }

  /** It lies between the least and the greatest true range of the history. */
  lemma AtrWithinRanges(history: seq<HistoryValues>, low: real, high: real)
    requires |history| >= 15
    requires forall i :: 0 <= i < |history| - 1 ==>
               low <= TrueRange(OhlcOf(history[i]), OhlcOf(history[i + 1])) <= high
    ensures low <= HistoryAtr(history) <= high
  {
    hide TrueRange;
    var bars := Map(history, OhlcOf);
    RangesLength(history);
    forall i | 0 <= i < |history| - 1 ensures low <= Ranges(history)[i] <= high {
      TrueRangesAt(bars, i);
    }
    WilderWithinRanges(Ranges(history), 14, |history| - 1, low, high);
  }

  // ------------------------------------------------------------------ the evaluation

  lemma UsableQuote(v: Input, quote: DiscoveryQuote)
    requires QuoteReasons(v, quote) == []
    ensures quote.price.Some? && quote.open.Some? && quote.open.value > 0.0
  {
    hide Current;
  }

  method CheckQuote(v: Input) returns (work: Work)
    ensures work == QuotePart(v)
  {
    hide QuoteReasons, Publish;
    if v.quote.None? {
      return Work([QuoteUnavailable], map[]);
    }
    var quote := v.quote.value;
    var reasons := QuoteReasons(v, quote);
    if reasons != [] {
      return Work(reasons, map[]);
    }
    UsableQuote(v, quote);
    var price, open := quote.price.value, quote.open.value;
    work := Publish(Price, price, quote.observedAt);
    work := Plus(work, Publish(ChangeFromOpenPct, ChangePct(price, open), quote.observedAt));
  }

  method CheckHistory(v: Input, zone: Clock.Zone, calendarOk: bool, price: Option<Metric>) returns (work: Work)
    requires calendarOk == CalendarOk(v, zone)
    ensures work == HistoryPart(v, zone, price)
  {
    hide CalendarOk, Prior, DailyScan, MeanVolume, HistoryAtr, LatestOf, FiniteDouble;
    var prior := Prior(v);
    var reasons: seq<Reason>, history: seq<HistoryValues> := [], [];
    if calendarOk && |prior| == 91 {
      reasons, history := ScanDaily(v, prior);
    }
    if |history| != 91 {
      return Work(reasons + [InsufficientDailyHistory], map[]);
    }
    var historyAt := LatestOf(Map(history, ObservedAt));
    var atr := SmoothRanges(history);
    var metrics := Plus(Plus(Publish(AverageVolume90d, MeanVolume(history, 90), historyAt),
                             Publish(AverageVolume30d, MeanVolume(history, 30), historyAt)),
                        Publish(Atr14d, atr, historyAt));
    if price.Some? {
      metrics := Plus(metrics, Priced(atr, ValueIn(metrics.metrics, AverageVolume30d), historyAt, price.value));
    }
    work := Plus(Work(reasons, map[]), metrics);
  }

  method CheckSlots(v: Input, zone: Clock.Zone, calendarOk: bool) returns (work: Work)
    requires calendarOk == CalendarOk(v, zone)
    ensures work == SlotPart(v, zone)
  {
    hide CalendarOk, Prior, SlotScan, FiniteDouble, Current, BoundaryOk;
    var current := Current(v);
    if current.None? || !calendarOk || !BoundaryOk(v) || |Prior(v)| < 10 {
      return Work([InsufficientSlotHistory], map[]);
    }
    var reasons, accepted := ScanSlots(v, SlotSessions(v), v.completedBarEnd - current.value.open);
    if |accepted| != 11 {
      return Work(reasons + [InsufficientSlotHistory], map[]);
    }
    work := Plus(Work(reasons, map[]), SlotMetrics(accepted));
  }

  method EvaluateDiscovery(v: Input, zone: Clock.Zone, now: Micros) returns (r: Result)
    requires v.identity.symbolId > 0
    ensures r == Evaluate(v, zone, now)
    ensures v.completedBarEnd % 1000 == 0 ==> Accepts(r)
  {
    hide IdentityReasons, CapPart, SessionReasons, QuotePart, HistoryPart, SlotPart, Failures, CalendarOk, AdjustmentOk,
         Accepts;
    ResultMeetsContract(v, zone, now);
    if now < v.evaluationAt {
      return ResultOf(v, now, Unevaluable, [FutureObservation], map[]);
    }
    if now - v.evaluationAt > 120 * SECOND {
      return ResultOf(v, now, Deferred, [EvaluationExpired], map[]);
    }
    var work := Plus(Work(IdentityReasons(v), map[]), CapPart(v));
    var calendarOk := VerifyCalendar(v, zone);
    work := Plus(work, Work(When(!AdjustmentOk(v), AdjustmentUnverified) + SessionReasons(v, zone), map[]));
    var quote := CheckQuote(v);
    work := Plus(work, quote);
    var history := CheckHistory(v, zone, calendarOk, PublishedPrice(work));
    work := Plus(work, history);
    var slots := CheckSlots(v, zone, calendarOk);
    work := Plus(work, slots);
    var failures := Failures(v.market, work.metrics);
    r := ResultOf(v, now, if work.reasons != [] then Unevaluable else if failures != [] then Fail else Pass,
                  work.reasons + failures, work.metrics);
  }

  /** In particular the order of the bars never matters. */
  lemma PermutedBarsGiveTheSameResult(
      v: Input, zone: Clock.Zone, now: Micros, daily: seq<DailyBar>, slots: seq<SlotBar>)
    requires multiset(daily) == multiset(v.dailyBars) && multiset(slots) == multiset(v.slotBars)
    ensures Evaluate(v.(dailyBars := daily, slotBars := slots), zone, now) == Evaluate(v, zone, now)
  {
    hide PriorDate, SlotInstant, Evaluate;
    OnlyRelevantBarsCount(v, zone, now, daily, slots);
  }
}
