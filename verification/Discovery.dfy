/** The discovery evaluator: completed-bar analytics of one symbol at one instant
    (services/scanner/app/discovery.py). Instants are microseconds; decimals are exact reals. */
module Discovery {
  import opened Lists
  import Clock
  import opened Indicators

  type Micros = int

  const SECOND: int := 1000000
  const FIVE_MINUTES: int := 300 * SECOND

  datatype Market = CaTsx | UsEquities
  datatype Currency = Cad | Usd
  datatype Source = Questrade | Fixture
  datatype Classification = CommonStockReviewed | OtherClass | UnknownClass
  datatype Convention = Unadjusted | SplitAdjusted | UnknownConvention
  datatype QuoteSession = Regular | Extended | UnknownSession
  datatype Policy = CaDiscoveryV1 | UsDiscoveryV1

  datatype Reason =
    | FutureObservation | EvaluationExpired | MarketMismatch | ExchangeNotAllowed | MappingUnavailable
    | CurrencyNotAllowed | ClassificationReviewRequired | MetadataUnavailable | AdjustmentUnverified
    | CalendarUnverified | OutsideRegularSession | InvalidEvaluationBoundary | QuoteUnavailable | QuoteDelayed
    | QuoteHalted | QuoteStale | InvalidOpen | InvalidBar | DuplicateBar | InsufficientDailyHistory
    | InsufficientSlotHistory | ZeroSlotBaseline | PriceOutOfRange | MarketCapThreshold | AverageVolumeThreshold
    | AtrThreshold | RelativeVolumeThreshold | ChangeFromOpenThreshold | DollarVolumeThreshold

  datatype Field =
    | Price | MarketCap | AverageVolume90d | AverageVolume30d | Atr14d | AtrPct | RelVolume
    | ChangeFromOpenPct | DollarVolume30d

  datatype Metric = Metric(value: real, asOf: Micros)
  type Metrics = map<Field, Metric>

  datatype Identity = Identity(
    market: Market, symbolId: nat, symbol: string, exchange: string, currency: Currency,
    classification: Classification, observedAt: Micros, source: Source)

  datatype Capitalization = Capitalization(value: Option<real>, currency: Currency, observedAt: Micros, source: Source)

  datatype DiscoveryQuote = DiscoveryQuote(
    price: Option<real>, open: Option<real>, priceAt: Option<Micros>, observedAt: Micros,
    delayed: Option<bool>, halted: Option<bool>, session: QuoteSession, source: Source)

  datatype CalendarSession = CalendarSession(tradingDate: int, open: Micros, close: Micros)

  datatype Calendar = Calendar(market: Market, verified: bool, observedAt: Micros, sessions: seq<CalendarSession>)

  datatype Adjustment = Adjustment(
    verified: bool, revision: string, convention: Convention, unresolvedAction: bool, observedAt: Micros)

  datatype HistoryValues = HistoryValues(
    open: real, high: real, low: real, close: real, volume: real, observedAt: Micros, complete: bool,
    source: Source, adjustmentRevision: string)

  datatype DailyBar = DailyBar(tradingDate: int, values: HistoryValues)
  datatype SlotBar = SlotBar(start: Micros, end: Micros, values: HistoryValues)

  datatype Input = Input(
    market: Market, policyVersion: Policy, providerCode: string, providerExchange: string, tradingDate: int,
    evaluationAt: Micros, completedBarEnd: Micros, identity: Identity, marketCap: Capitalization,
    quote: Option<DiscoveryQuote>, calendar: Calendar, adjustment: Adjustment,
    dailyBars: seq<DailyBar>, slotBars: seq<SlotBar>)

  datatype State = Pass | Fail | Unevaluable | Deferred

  datatype Result = Result(
    market: Market, policyVersion: Policy, providerCode: string, symbolId: nat, providerExchange: string,
    tradingDate: int, evaluationAt: Micros, computedAt: Micros, completedBarEnd: Micros,
    state: State, reasons: seq<Reason>, metrics: Metrics)

  /** What a part of the evaluation adds: reasons in order, and published metrics. */
  datatype Work = Work(reasons: seq<Reason>, metrics: Metrics)

  function Plus(a: Work, b: Work): Work { Work(a.reasons + b.reasons, a.metrics + b.metrics) }

  const NOTHING: Work := Work([], map[])

  // ------------------------------------------------------------------ publishing

  function Pow2(n: nat): real { if n == 0 then 1.0 else 2.0 * Pow2(n - 1) }

  /** A decimal whose nearest double is finite. */
  predicate FiniteDouble(x: real) { Abs(x) < Pow2(1024) - Pow2(970) }

  function Publish(field: Field, number: real, at: Micros): Work {
    if FiniteDouble(number) then Work([], map[field := Metric(number, at)]) else Work([InvalidBar], map[])
  }

  // ------------------------------------------------------------------ identity and metadata

  function ExpectedPolicy(m: Market): Policy { if m.CaTsx? then CaDiscoveryV1 else UsDiscoveryV1 }

  function MarketCurrency(m: Market): Currency { if m.CaTsx? then Cad else Usd }

  function Exchanges(m: Market): set<string> { if m.CaTsx? then {"TSX"} else {"NYSE", "NASDAQ"} }

  function ProviderExchanges(m: Market, exchange: string): set<string> {
    if m.CaTsx? then (if exchange == "TSX" then {"TO", "TSX"} else {})
    else if exchange == "NASDAQ" then {"XNAS", "NASDAQ"}
    else if exchange == "NYSE" then {"XNYS", "NYSE"}
    else {}
  }

  function Upper(s: string): string {
    if s == [] then [] else [if 'a' <= s[0] <= 'z' then 'A' + (s[0] - 'a') else s[0]] + Upper(s[1..])
  }

  predicate Blank(c: char) { c == ' ' || c == '\t' || c == '\n' || c == '\r' }

  function Strip(s: string): string
    decreases |s|
  {
    if s == [] then []
    else if Blank(s[0]) then Strip(s[1..])
    else if Blank(s[|s| - 1]) then Strip(s[..|s| - 1])
    else s
  }

  function ExpectedSymbol(v: Input): string { if v.market.CaTsx? then v.providerCode + ".TO" else v.providerCode }

  function IdentityReasons(v: Input): seq<Reason> {
    var at := v.evaluationAt;
    When(v.identity.market != v.market || v.calendar.market != v.market || v.policyVersion != ExpectedPolicy(v.market),
         MarketMismatch) +
    When(v.identity.exchange !in Exchanges(v.market), ExchangeNotAllowed) +
    When(v.identity.symbol != ExpectedSymbol(v) ||
         Upper(Strip(v.providerExchange)) !in ProviderExchanges(v.market, v.identity.exchange), MappingUnavailable) +
    When(v.identity.currency != MarketCurrency(v.market) || v.marketCap.currency != MarketCurrency(v.market),
         CurrencyNotAllowed) +
    When(!v.identity.classification.CommonStockReviewed?, ClassificationReviewRequired) +
    When(at < v.identity.observedAt || at < v.marketCap.observedAt || at < v.calendar.observedAt ||
         at < v.adjustment.observedAt, FutureObservation)
  }

  function CapPart(v: Input): Work {
    var mismatch := Work(When(v.marketCap.source != v.identity.source, MetadataUnavailable), map[]);
    if v.marketCap.value.None? || v.marketCap.value.value < 0.0 then
      Plus(mismatch, Work([MetadataUnavailable], map[]))
    else if v.marketCap.observedAt <= v.evaluationAt then
      Plus(mismatch, Publish(MarketCap, v.marketCap.value.value, v.marketCap.observedAt))
    else mismatch
  }

  predicate AdjustmentOk(v: Input) {
    v.adjustment.verified && !v.adjustment.convention.UnknownConvention? && !v.adjustment.unresolvedAction
  }

  // ------------------------------------------------------------------ calendar and boundary

  function OpenOf(s: CalendarSession): int { s.open }

  function SortedSessions(v: Input): seq<CalendarSession> { SortByKey(v.calendar.sessions, OpenOf) }

  function LocalDate(zone: Clock.Zone, t: Micros): int { Clock.LocalDate(zone, t / SECOND) }

  predicate SessionOk(zone: Clock.Zone, sessions: seq<CalendarSession>, i: nat)
    requires i < |sessions|
  {
    && sessions[i].open < sessions[i].close
    && LocalDate(zone, sessions[i].open) == sessions[i].tradingDate
    && LocalDate(zone, sessions[i].close) == sessions[i].tradingDate
    && (i > 0 ==> sessions[i - 1].close < sessions[i].open)
  }

  predicate CalendarOk(v: Input, zone: Clock.Zone) {
    var sessions := SortedSessions(v);
    && v.calendar.verified
    && (forall i, j :: 0 <= i < j < |sessions| ==> sessions[i].tradingDate != sessions[j].tradingDate)
    && (forall i :: 0 <= i < |sessions| ==> SessionOk(zone, sessions, i))
  }

  function FindSession(sessions: seq<CalendarSession>, date: int): (r: Option<CalendarSession>)
    ensures r.Some? ==> r.value in sessions && r.value.tradingDate == date
    ensures r.None? ==> forall s :: s in sessions ==> s.tradingDate != date
  {
    if sessions == [] then None
    else if sessions[0].tradingDate == date then Some(sessions[0])
    else FindSession(sessions[1..], date)
  }

  function Current(v: Input): Option<CalendarSession> { FindSession(SortedSessions(v), v.tradingDate) }

  function LastOf<T>(s: seq<T>, n: nat): seq<T> { if |s| <= n then s else s[|s| - n..] }

  function Prior(v: Input): seq<CalendarSession> {
    LastOf(Filter(SortedSessions(v), (s: CalendarSession) => s.tradingDate < v.tradingDate), 91)
  }

  predicate BoundaryOk(v: Input) {
    var current := Current(v);
    current.Some? &&
    var elapsed := v.completedBarEnd - current.value.open;
    var latest := current.value.open + (v.evaluationAt - current.value.open) / FIVE_MINUTES * FIVE_MINUTES;
    && elapsed >= FIVE_MINUTES && elapsed % FIVE_MINUTES == 0
    && v.completedBarEnd <= current.value.close
    && v.completedBarEnd + 15 * SECOND <= v.evaluationAt
    && latest == v.completedBarEnd
  }

  function SessionReasons(v: Input, zone: Clock.Zone): seq<Reason> {
    var current := Current(v);
    When(!CalendarOk(v, zone) || current.None?, CalendarUnverified) +
    (if current.Some? then
       When(!(current.value.open <= v.evaluationAt < current.value.close), OutsideRegularSession) +
       When(!BoundaryOk(v), InvalidEvaluationBoundary)
     else [])
  }

  // ------------------------------------------------------------------ quote

  function QuoteReasons(v: Input, q: DiscoveryQuote): seq<Reason> {
    var at, current := v.evaluationAt, Current(v);
    When(q.delayed.None? || q.halted.None? || q.source != v.identity.source, QuoteUnavailable) +
    When(q.delayed == Some(true), QuoteDelayed) +
    When(q.halted == Some(true), QuoteHalted) +
    When(!q.session.Regular? ||
         (current.Some? && q.priceAt.Some? && !(current.value.open <= q.priceAt.value < current.value.close)),
         OutsideRegularSession) +
    When(at < q.observedAt || (q.priceAt.Some? && (at < q.priceAt.value || q.observedAt < q.priceAt.value)),
         FutureObservation) +
    When(q.priceAt.None? || at - q.observedAt > 30 * SECOND ||
         (q.priceAt.Some? && at - q.priceAt.value > 30 * SECOND), QuoteStale) +
    When(q.price.None? || q.price.value <= 0.0, QuoteUnavailable) +
    When(q.open.None? || q.open.value <= 0.0, InvalidOpen)
  }

  function ChangePct(price: real, open: real): real
    requires open != 0.0
  {
    100.0 * (price - open) / open
  }

  function QuotePart(v: Input): Work {
    match v.quote
    case None => Work([QuoteUnavailable], map[])
    case Some(q) =>
      var reasons := QuoteReasons(v, q);
      if reasons == [] && q.price.Some? && q.open.Some? then
        assert q.open.value > 0.0;
        Plus(Publish(Price, q.price.value, q.observedAt),
             Publish(ChangeFromOpenPct, ChangePct(q.price.value, q.open.value), q.observedAt))
      else Work(reasons, map[])
  }

  // ------------------------------------------------------------------ bars

  function Least(a: real, b: real): real { if b < a then b else a }
  function Greatest(a: real, b: real): real { if a < b then b else a }

  predicate PricesOk(bar: HistoryValues) {
    && Least(Least(bar.open, bar.high), Least(bar.low, bar.close)) > 0.0 && bar.volume >= 0.0
    && bar.low <= Least(bar.open, bar.close) && Greatest(bar.open, bar.close) <= bar.high
  }

  function BarReasons(v: Input, bar: HistoryValues, end: Micros): seq<Reason> {
    When(!bar.complete || bar.observedAt < end, InvalidBar) +
    When(v.evaluationAt < bar.observedAt || v.evaluationAt < end, FutureObservation) +
    When(!PricesOk(bar), InvalidBar) +
    When(bar.source != v.identity.source || bar.adjustmentRevision != v.adjustment.revision || !AdjustmentOk(v),
         AdjustmentUnverified)
  }

  function DailyOn(bars: seq<DailyBar>, date: int): seq<DailyBar> {
    Filter(bars, (b: DailyBar) => b.tradingDate == date)
  }

  datatype Scan<T> = Scan(reasons: seq<Reason>, accepted: seq<T>)

  /** One prior session: its only complete and valid daily bar is accepted. */
  function DailyStep(v: Input, s: CalendarSession, bars: seq<DailyBar>): Scan<HistoryValues> {
    var duplicate := When(|bars| > 1, DuplicateBar);
    if |bars| != 1 || !bars[0].values.complete then Scan(duplicate, [])
    else
      var reasons := BarReasons(v, bars[0].values, s.close);
      Scan(duplicate + reasons, if reasons == [] then [bars[0].values] else [])
  }

  function DailyScan(v: Input, sessions: seq<CalendarSession>): Scan<HistoryValues> {
    if sessions == [] then Scan([], [])
    else
      var n := |sessions| - 1;
      var before := DailyScan(v, sessions[..n]);
      var last := DailyStep(v, sessions[n], DailyOn(v.dailyBars, sessions[n].tradingDate));
      Scan(before.reasons + last.reasons, before.accepted + last.accepted)
  }

  function ScannedHistory(v: Input, zone: Clock.Zone): Scan<HistoryValues> {
    if CalendarOk(v, zone) && |Prior(v)| == 91 then DailyScan(v, Prior(v)) else Scan([], [])
  }

  function VolumeOf(bar: HistoryValues): real { bar.volume }
  function ObservedAt(bar: HistoryValues): int { bar.observedAt }

  function MeanVolume(history: seq<HistoryValues>, n: nat): real
    requires 0 < n
  {
    Sum(Map(LastOf(history, n), VolumeOf)) / n as real
  }

  function LatestOf(times: seq<int>): (m: int)
    requires times != []
    ensures m in times && forall t :: t in times ==> t <= m
  {
    if |times| == 1 then times[0]
    else
      var rest := LatestOf(times[1..]);
      assert forall t :: t in times ==> t == times[0] || t in times[1..];
      if rest < times[0] then times[0] else rest
  }

  function OhlcOf(bar: HistoryValues): Bar { Bar(bar.high, bar.low, bar.close) }

  function Ranges(history: seq<HistoryValues>): seq<real> { TrueRanges(Map(history, OhlcOf)) }

  /** Wilder's value over the accepted history, as `_atr(daily, 14)` computes it on candles. */
  function HistoryAtr(history: seq<HistoryValues>): real
    requires |history| >= 15
  {
    Wilder(Ranges(history), 14, |history| - 1)
  }

  function VolumeAndRange(history: seq<HistoryValues>, at: Micros): Work
    requires |history| == 91
  {
    Plus(Plus(Publish(AverageVolume90d, MeanVolume(history, 90), at),
              Publish(AverageVolume30d, MeanVolume(history, 30), at)),
         Publish(Atr14d, HistoryAtr(history), at))
  }

  function PercentOf(x: real, price: real): real
    requires price != 0.0
  {
    100.0 * x / price
  }

  function Turnover(price: real, volume: real): real { price * volume }

  /** The two metrics that also need the price; a published price is positive. */
  function Priced(atr: real, volume30: Option<real>, at: Micros, price: Metric): Work {
    var combined := if at < price.asOf then price.asOf else at;
    if price.value == 0.0 then NOTHING
    else Plus(Publish(AtrPct, PercentOf(atr, price.value), combined),
              if volume30.Some? then Publish(DollarVolume30d, Turnover(price.value, volume30.value), combined)
              else NOTHING)
  }

  function ValueIn(metrics: Metrics, field: Field): Option<real> {
    if field in metrics then Some(metrics[field].value) else None
  }

  function HistoryMetrics(history: seq<HistoryValues>, price: Option<Metric>): Work
    requires |history| == 91
  {
    var at := LatestOf(Map(history, ObservedAt));
    var base := VolumeAndRange(history, at);
    if price.None? then base
    else Plus(base, Priced(HistoryAtr(history), ValueIn(base.metrics, AverageVolume30d), at, price.value))
  }

  function HistoryPart(v: Input, zone: Clock.Zone, price: Option<Metric>): Work {
    var scan := ScannedHistory(v, zone);
    if |scan.accepted| != 91 then Work(scan.reasons + [InsufficientDailyHistory], map[])
    else Plus(Work(scan.reasons, map[]), HistoryMetrics(scan.accepted, price))
  }

  // ------------------------------------------------------------------ slots

  function SlotsAt(bars: seq<SlotBar>, start: Micros): seq<SlotBar> {
    Filter(bars, (b: SlotBar) => b.start == start)
  }

  function SlotStep(v: Input, s: CalendarSession, end: Micros, bars: seq<SlotBar>): Scan<HistoryValues> {
    var duplicate := When(|bars| > 1, DuplicateBar);
    if s.close < end || |bars| != 1 then Scan(duplicate, [])
    else if bars[0].end != end then Scan(duplicate + [InvalidBar], [])
    else
      var reasons := BarReasons(v, bars[0].values, end);
      Scan(duplicate + reasons, if reasons == [] then [bars[0].values] else [])
  }

  function SlotScan(v: Input, sessions: seq<CalendarSession>, offset: int): Scan<HistoryValues> {
    if sessions == [] then Scan([], [])
    else
      var n := |sessions| - 1;
      var before := SlotScan(v, sessions[..n], offset);
      var end := sessions[n].open + offset;
      var last := SlotStep(v, sessions[n], end, SlotsAt(v.slotBars, end - FIVE_MINUTES));
      Scan(before.reasons + last.reasons, before.accepted + last.accepted)
  }

  predicate SlotsApply(v: Input, zone: Clock.Zone) {
    Current(v).Some? && CalendarOk(v, zone) && BoundaryOk(v) && |Prior(v)| >= 10
  }

  function SlotSessions(v: Input): seq<CalendarSession>
    requires Current(v).Some?
  {
    LastOf(Prior(v), 10) + [Current(v).value]
  }

  function SlotMetrics(accepted: seq<HistoryValues>): Work
    requires |accepted| == 11
  {
    var denominator := Sum(Map(accepted[..10], VolumeOf)) / 10.0;
    if denominator <= 0.0 then Work([ZeroSlotBaseline], map[])
    else Publish(RelVolume, accepted[10].volume / denominator, LatestOf(Map(accepted, ObservedAt)))
  }

  function SlotPart(v: Input, zone: Clock.Zone): Work {
    if SlotsApply(v, zone) then
      var scan := SlotScan(v, SlotSessions(v), v.completedBarEnd - Current(v).value.open);
      if |scan.accepted| == 11 then Plus(Work(scan.reasons, map[]), SlotMetrics(scan.accepted))
      else Work(scan.reasons + [InsufficientSlotHistory], map[])
    else Work([InsufficientSlotHistory], map[])
  }

  // ------------------------------------------------------------------ thresholds

  datatype Thresholds = Thresholds(
    minimum: real, maximum: real, cap: real, volume: real, atrPct: real, relative: real, change: real, dollars: real)

  function ThresholdsOf(m: Market): Thresholds {
    if m.CaTsx? then Thresholds(5.0, 150.0, 400000000.0, 400000.0, 1.5, 1.5, 0.75, 15000000.0)
    else Thresholds(10.0, 200.0, 1000000000.0, 1000000.0, 2.0, 1.75, 1.0, 50000000.0)
  }

  function Below(metrics: Metrics, field: Field, threshold: real, reason: Reason): seq<Reason> {
    When(field in metrics && metrics[field].value <= threshold, reason)
  }

  function Failures(m: Market, metrics: Metrics): seq<Reason> {
    var t := ThresholdsOf(m);
    When(Price in metrics && !(t.minimum <= metrics[Price].value <= t.maximum), PriceOutOfRange) +
    Below(metrics, MarketCap, t.cap, MarketCapThreshold) +
    Below(metrics, AverageVolume90d, t.volume, AverageVolumeThreshold) +
    Below(metrics, AtrPct, t.atrPct, AtrThreshold) +
    Below(metrics, RelVolume, t.relative, RelativeVolumeThreshold) +
    Below(metrics, ChangeFromOpenPct, t.change, ChangeFromOpenThreshold) +
    Below(metrics, DollarVolume30d, t.dollars, DollarVolumeThreshold)
  }

  // ------------------------------------------------------------------ the evaluation

  /** `list(dict.fromkeys(...))`. */
  function WithoutRepeats(reasons: seq<Reason>): (r: seq<Reason>)
    ensures r == [] <==> reasons == []
    ensures forall x :: x in r <==> x in reasons
  {
    if reasons == [] then []
    else
      var n := |reasons| - 1;
      var before := WithoutRepeats(reasons[..n]);
      assert reasons == reasons[..n] + [reasons[n]];
      if reasons[n] in before then before else before + [reasons[n]]
  }

  function ResultOf(v: Input, now: Micros, state: State, reasons: seq<Reason>, metrics: Metrics): Result {
    Result(v.market, ExpectedPolicy(v.market), v.providerCode, v.identity.symbolId, v.providerExchange,
           v.tradingDate, v.evaluationAt, now, v.completedBarEnd, state, WithoutRepeats(reasons), metrics)
  }

  /** Reasons and metrics of a timely evaluation, in the order in which they arise. */
  function FrontPart(v: Input, zone: Clock.Zone): Work {
    Plus(Plus(Plus(Work(IdentityReasons(v), map[]), CapPart(v)),
              Work(When(!AdjustmentOk(v), AdjustmentUnverified) + SessionReasons(v, zone), map[])),
         QuotePart(v))
  }

  function PublishedPrice(w: Work): Option<Metric> { if Price in w.metrics then Some(w.metrics[Price]) else None }

  function Evidence(v: Input, zone: Clock.Zone): Work {
    var front := FrontPart(v, zone);
    Plus(Plus(front, HistoryPart(v, zone, PublishedPrice(front))), SlotPart(v, zone))
  }

  function Conclude(v: Input, now: Micros, w: Work): Result {
    var failures := Failures(v.market, w.metrics);
    ResultOf(v, now, if w.reasons != [] then Unevaluable else if failures != [] then Fail else Pass,
             w.reasons + failures, w.metrics)
  }

  function Evaluate(v: Input, zone: Clock.Zone, now: Micros): Result {
    if now < v.evaluationAt then ResultOf(v, now, Unevaluable, [FutureObservation], map[])
    else if now - v.evaluationAt > 120 * SECOND then ResultOf(v, now, Deferred, [EvaluationExpired], map[])
    else Conclude(v, now, Evidence(v, zone))
  }
}
