/** The state of the scanner's feature engine and what each of its operations does to it
    (services/scanner/app/feature_engine.py:70-739). The class in FeatureEngine.dfy performs
    these steps on its fields; the theorems about whole runs are about these functions. */
module FeatureState {
  import opened Lists
  import opened Clock
  import opened Candles
  import opened Indicators

  datatype Role = Candidate | Benchmark
  datatype BenchmarkKind = Market | Sector | Unspecified
  datatype Instrument = Instrument(id: InstrumentId, symbol: string, role: Role, kind: BenchmarkKind)

  /** A market session. The two opening-range clocks are given as the instants they denote. */
  datatype Session = Session(
    market: string, zone: Zone, start: Time, end: Time, openingStart: Time, openingEnd: Time,
    instruments: seq<Instrument>)

  datatype Quote = Quote(
    id: InstrumentId, symbol: string, timestamp: Time, bid: real, ask: real, last: real, dayOpen: real)

  datatype CandleKey = CandleKey(id: InstrumentId, timeframe: Timeframe, start: Time)

  function KeyOf(c: Candle): CandleKey { CandleKey(c.id, c.timeframe, c.start) }

  /** Everything computed from candles for one instrument and minute. RSI and the daily EMA context
      are functions of `rsiBars` and `daily`; the VWAP structure is one of the two current lists. */
  datatype Derived = Derived(
    oneMinute: seq<Candle>, fiveMinute: seq<Candle>, daily: seq<Candle>, rsiBars: seq<Candle>,
    vwap: Option<real>, atr14: Option<real>, volume: RelativeVolume, openingRange: Option<OpeningRange>,
    highs: seq<FeatureLevel>, lows: seq<FeatureLevel>, baseline5m: Option<real>)

  datatype ContextBase = ContextBase(
    bars: seq<Candle>, rsiBars: seq<Candle>, daily: seq<Candle>, priorDayHigh: Option<real>)

  /** The part of both cache keys that varies within one engine. */
  datatype CacheKey = CacheKey(
    market: string, id: InstrumentId, oneMinute: nat, fiveMinutes: nat, daily: nat, minute: Time)

  datatype CachedFeatures = CachedFeatures(key: CacheKey, derived: Derived)
  datatype CachedContext = CachedContext(key: CacheKey, base: ContextBase)

  /** A published snapshot, by what it is computed from: the full calculation, or the
      benchmark-only one that reads just the close five minutes ago. */
  datatype Snapshot =
    | Full(market: string, quote: Quote, derived: Derived)
    | BenchmarkOnly(market: string, quote: Quote, close5m: Option<real>)

  datatype Error =
    | NoSession | EndNotAfterStart | TwoMarketBenchmarks | UnknownInstrument(symbol: string)
    | InvalidRange(symbol: string) | InvalidValues(symbol: string) | InvalidQuote(symbol: string)
    | IdentityChanged(symbol: string) | BenchmarkRetired | NotInSession

  type History = map<int, seq<Candle>>

  datatype Engine = Engine(
    session: Option<Session>,
    instruments: map<InstrumentId, Instrument>,
    candidates: set<InstrumentId>,
    candles: map<CandleKey, Candle>,
    series: map<InstrumentId, map<Timeframe, seq<Candle>>>,
    history: map<InstrumentId, History>,
    quotes: map<InstrumentId, Quote>,
    snapshots: map<InstrumentId, Snapshot>,
    unavailable: set<InstrumentId>,
    featureCache: map<InstrumentId, CachedFeatures>,
    contextCache: map<InstrumentId, CachedContext>)

  const EMPTY: Engine :=
    Engine(None, map[], {}, map[], map[], map[], map[], map[], {}, map[], map[])

  // ------------------------------------------------------------------ the calculation itself

  predicate InRegularSession(s: Session, c: Candle) {
    && LocalMinuteOfDay(s.zone, s.start) <= LocalMinuteOfDay(s.zone, c.start)
    && LocalMinuteOfDay(s.zone, c.end) <= LocalMinuteOfDay(s.zone, s.end)
  }

  function RegularSession(s: Session, cs: seq<Candle>): seq<Candle> {
    Filter(cs, (c: Candle) => InRegularSession(s, c))
  }

  function Slice(cs: seq<Candle>, from: nat, to: nat): seq<Candle>
    requires from <= |cs| && to <= |cs|
  {
    if from <= to then cs[from..to] else []
  }

  /** What `_calculate` computes on a cache miss. */
  function Derive(s: Session, one: seq<Candle>, five: seq<Candle>, daily: seq<Candle>, history: History, t: Time)
    : Derived
  {
    var current := Complete(Slice(one, InsertionPoint(one, s.start), BisectEnd(one, t)));
    var rsiBars := RegularSession(s, CompletedCandles(five, t));
    var fiveMinute := StartingFrom(rsiBars, s.start);
    var days := CompleteEndedBy(daily, s.start);
    var atr := Atr14(days);
    Derived(
      current, fiveMinute, days, rsiBars, Vwap(current), atr,
      RvolAtTime(current, s.start, t, history),
      ComputeOpeningRange(current, s.openingStart, s.openingEnd, t, atr),
      Swings(fiveMinute, SwingHigh), Swings(fiveMinute, SwingLow),
      RollingBaseline(current, t, 5))
  }

  /** What `_context_base` computes on a cache miss. */
  function DeriveContext(s: Session, five: seq<Candle>, daily: seq<Candle>, t: Time): ContextBase {
    var rsiBars := RegularSession(s, CompleteEndedBy(five, t));
    var days := CompleteEndedBy(daily, s.start);
    ContextBase(StartingFrom(rsiBars, s.start), rsiBars, days,
                if days == [] then None else Some(days[|days| - 1].high))
  }

  // ------------------------------------------------------------------ reading the state

  function SeriesOf(e: Engine, id: InstrumentId, tf: Timeframe): seq<Candle> {
    if id in e.series && tf in e.series[id] then e.series[id][tf] else []
  }

  function HistoryOf(e: Engine, id: InstrumentId): History {
    if id in e.history then e.history[id] else map[]
  }

  function CacheKeyOf(e: Engine, s: Session, id: InstrumentId, t: Time): CacheKey {
    CacheKey(s.market, id, |SeriesOf(e, id, OneMinute)|, |SeriesOf(e, id, FiveMinutes)|,
             |SeriesOf(e, id, OneDay)|, MinuteOf(t))
  }

  /** The features recomputed from the series, the historical index and the instant. */
  function FreshFeatures(e: Engine, s: Session, id: InstrumentId, t: Time): Derived {
    Derive(s, SeriesOf(e, id, OneMinute), SeriesOf(e, id, FiveMinutes), SeriesOf(e, id, OneDay),
           HistoryOf(e, id), t)
  }

  function FreshContext(e: Engine, s: Session, id: InstrumentId, t: Time): ContextBase {
    DeriveContext(s, SeriesOf(e, id, FiveMinutes), SeriesOf(e, id, OneDay), t)
  }

  predicate HitsFeatures(e: Engine, s: Session, id: InstrumentId, t: Time) {
    id in e.featureCache && e.featureCache[id].key == CacheKeyOf(e, s, id, t)
  }

  predicate HitsContext(e: Engine, s: Session, id: InstrumentId, t: Time) {
    id in e.contextCache && e.contextCache[id].key == CacheKeyOf(e, s, id, t)
  }

  /** The features the engine uses: those of a matching cache entry, else fresh ones. */
  function Features(e: Engine, s: Session, id: InstrumentId, t: Time): Derived {
    if HitsFeatures(e, s, id, t) then e.featureCache[id].derived else FreshFeatures(e, s, id, t)
  }

  function Context(e: Engine, s: Session, id: InstrumentId, t: Time): ContextBase {
    if HitsContext(e, s, id, t) then e.contextCache[id].base else FreshContext(e, s, id, t)
  }

  function FullSnapshot(e: Engine, s: Session, q: Quote): Snapshot {
    Full(s.market, q, Features(e, s, q.id, q.timestamp))
  }

  function BenchmarkSnapshot(e: Engine, s: Session, q: Quote): Snapshot {
    BenchmarkOnly(s.market, q, LastCompletedClose(SeriesOf(e, q.id, OneMinute), q.timestamp - 60 * 5))
  }

  // ------------------------------------------------------------------ start_session

  function InstrumentMap(instruments: seq<Instrument>): map<InstrumentId, Instrument> {
    if instruments == [] then map[]
    else
      var last := |instruments| - 1;
      InstrumentMap(instruments[..last])[instruments[last].id := instruments[last]]
  }

  function CandidateIds(instruments: seq<Instrument>): set<InstrumentId> {
    set i | i in instruments && i.role.Candidate? :: i.id
  }

  function MarketBenchmarks(instruments: seq<Instrument>): nat {
    if instruments == [] then 0
    else
      var first := instruments[0];
      (if first.role.Benchmark? && first.kind.Market? then 1 else 0) + MarketBenchmarks(instruments[1..])
  }

  function Entered(e: Engine, s: Session): Engine {
    e.(session := Some(s), instruments := InstrumentMap(s.instruments), candidates := CandidateIds(s.instruments))
  }

  /** Both checks raise; the second one only after the session and its instruments are in place. */
  function StartSession(e: Engine, s: Session): (Engine, Option<Error>) {
    if s.end <= s.start then (e, Some(EndNotAfterStart))
    else if MarketBenchmarks(s.instruments) > 1 then (Entered(e, s), Some(TwoMarketBenchmarks))
    else (Entered(EMPTY, s), None)
  }

  // ------------------------------------------------------------------ ingest_candles

  predicate Known(instruments: map<InstrumentId, Instrument>, id: InstrumentId, symbol: string) {
    id in instruments && instruments[id].symbol == symbol
  }

  function CandleError(instruments: map<InstrumentId, Instrument>, c: Candle): Option<Error> {
    if !Known(instruments, c.id, c.symbol) then Some(UnknownInstrument(c.symbol))
    else if c.end <= c.start then Some(InvalidRange(c.symbol))
    else if c.volume < 0 || c.low > c.high then Some(InvalidValues(c.symbol))
    else None
  }

  predicate Holds(cs: seq<Candle>, start: Time) {
    var k := InsertionPoint(cs, start);
    k < |cs| && cs[k].start == start
  }

  /** Replaces the candle with the same start, or inserts at the insertion point. */
  function Put(cs: seq<Candle>, c: Candle): seq<Candle> {
    var k := InsertionPoint(cs, c.start);
    if Holds(cs, c.start) then cs[k := c] else cs[..k] + [c] + cs[k..]
  }

  predicate Historical(s: Session, c: Candle) {
    c.timeframe.OneMinute? && c.complete && c.start < s.start
  }

  function PutHistory(h: History, c: Candle): History {
    var date := UtcDate(c.start);
    h[date := Put(if date in h then h[date] else [], c)]
  }

  function AddCandle(e: Engine, s: Session, c: Candle): Engine {
    var series := SeriesOf(e, c.id, c.timeframe);
    var frames := if c.id in e.series then e.series[c.id] else map[];
    var dropped := if Holds(series, c.start) then {c.id} else {};
    e.(candles := e.candles[KeyOf(c) := c],
       series := e.series[c.id := frames[c.timeframe := Put(series, c)]],
       featureCache := e.featureCache - dropped,
       contextCache := e.contextCache - dropped,
       history := if Historical(s, c) then e.history[c.id := PutHistory(HistoryOf(e, c.id), c)] else e.history)
  }

  /** Candles are added until the first one that is refused. */
  function AddCandles(e: Engine, s: Session, batch: seq<Candle>): (Engine, Option<Error>)
    decreases |batch|
  {
    if batch == [] then (e, None)
    else if CandleError(e.instruments, batch[0]).Some? then (e, CandleError(e.instruments, batch[0]))
    else AddCandles(AddCandle(e, s, batch[0]), s, batch[1..])
  }

  function BatchIds(batch: seq<Candle>): set<InstrumentId> { set c | c in batch :: c.id }

  function Remember(e: Engine, s: Session, q: Quote): CachedFeatures {
    CachedFeatures(CacheKeyOf(e, s, q.id, q.timestamp), Features(e, s, q.id, q.timestamp))
  }

  function RefreshedFeatures(e: Engine, s: Session, ids: set<InstrumentId>): map<InstrumentId, CachedFeatures> {
    map id | id in ids && id in e.quotes :: Remember(e, s, e.quotes[id])
  }

  function RefreshedSnapshots(e: Engine, s: Session, ids: set<InstrumentId>): map<InstrumentId, Snapshot> {
    map id | id in ids && id in e.quotes :: FullSnapshot(e, s, e.quotes[id])
  }

  /** Recalculates the snapshot of every listed instrument that has a quote. */
  function Refresh(e: Engine, s: Session, ids: set<InstrumentId>): Engine {
    e.(featureCache := e.featureCache + RefreshedFeatures(e, s, ids),
       snapshots := e.snapshots + RefreshedSnapshots(e, s, ids))
  }

  function IngestCandles(e: Engine, batch: seq<Candle>): (Engine, Option<Error>) {
    match e.session
    case None => (e, Some(NoSession))
    case Some(s) =>
      var (added, error) := AddCandles(e, s, batch);
      if error.Some? then (added, error) else (Refresh(added, s, BatchIds(batch)), None)
  }

  // ------------------------------------------------------------------ ingest_quotes

  predicate InvalidQuoteValues(q: Quote) {
    q.bid <= 0.0 || q.ask < q.bid || q.last <= 0.0 || q.dayOpen <= 0.0
  }

  function DropQuote(e: Engine, id: InstrumentId): Engine {
    e.(unavailable := e.unavailable + {id}, quotes := e.quotes - {id}, snapshots := e.snapshots - {id})
  }

  function TakeQuote(e: Engine, s: Session, q: Quote, full: bool): Engine {
    var taken := e.(unavailable := e.unavailable - {q.id}, quotes := e.quotes[q.id := q]);
    if full then
      taken.(featureCache := taken.featureCache[q.id := Remember(taken, s, q)],
             snapshots := taken.snapshots[q.id := FullSnapshot(taken, s, q)])
    else taken.(snapshots := taken.snapshots[q.id := BenchmarkSnapshot(taken, s, q)])
  }

  datatype QuoteResult = QuoteResult(engine: Engine, snapshots: seq<Snapshot>, error: Option<Error>)

  function AddQuotes(e: Engine, s: Session, quotes: seq<Quote>, includeBenchmarks: bool): (r: QuoteResult)
    decreases |quotes|
  {
    if quotes == [] then QuoteResult(e, [], None)
    else
      var q := quotes[0];
      if !Known(e.instruments, q.id, q.symbol) then QuoteResult(e, [], Some(UnknownInstrument(q.symbol)))
      else if InvalidQuoteValues(q) then
        if e.instruments[q.id].role.Benchmark? then AddQuotes(DropQuote(e, q.id), s, quotes[1..], includeBenchmarks)
        else QuoteResult(e, [], Some(InvalidQuote(q.symbol)))
      else
        var next := TakeQuote(e, s, q, includeBenchmarks || q.id in e.candidates);
        var rest := AddQuotes(next, s, quotes[1..], includeBenchmarks);
        if rest.error.Some? then rest
        else QuoteResult(rest.engine, [next.snapshots[q.id]] + rest.snapshots, None)
  }

  function IngestQuotes(e: Engine, quotes: seq<Quote>, includeBenchmarks: bool): QuoteResult {
    match e.session
    case None => QuoteResult(e, [], Some(NoSession))
    case Some(s) => AddQuotes(e, s, quotes, includeBenchmarks)
  }

  // ------------------------------------------------------------------ warm and retire

  function Admit(e: Engine, i: Instrument): Engine {
    e.(instruments := if i.id in e.instruments then e.instruments else e.instruments[i.id := i],
       candidates := if i.role.Candidate? then e.candidates + {i.id} else e.candidates)
  }

  function Warm(e: Engine, i: Instrument, batch: seq<Candle>): (Engine, Option<Error>) {
    if e.session.None? then (e, Some(NoSession))
    else if i.id in e.instruments && e.instruments[i.id].symbol != i.symbol then (e, Some(IdentityChanged(i.symbol)))
    else IngestCandles(Admit(e, i), batch)
  }

  function WithoutCandles(candles: map<CandleKey, Candle>, ids: set<InstrumentId>): map<CandleKey, Candle> {
    map k | k in candles && k.id !in ids :: candles[k]
  }

  function Forget(e: Engine, ids: set<InstrumentId>): Engine {
    Engine(e.session, e.instruments - ids, e.candidates - ids,
           WithoutCandles(e.candles, ids),
           e.series - ids, e.history - ids, e.quotes - ids, e.snapshots - ids, e.unavailable - ids,
           e.featureCache - ids, e.contextCache - ids)
  }

  function Retired(e: Engine, ids: seq<InstrumentId>): set<InstrumentId> {
    set id | id in ids && id in e.instruments
  }

  function Retire(e: Engine, ids: seq<InstrumentId>): (Engine, Option<Error>) {
    if e.session.None? then (e, Some(NoSession))
    else if exists id :: id in Retired(e, ids) && e.instruments[id].role.Benchmark? then (e, Some(BenchmarkRetired))
    else (Forget(e, Retired(e, ids)), None)
  }

  // ------------------------------------------------------------------ operations and runs

  datatype Op =
    | OpStart(session: Session)
    | OpWarm(instrument: Instrument, batch: seq<Candle>)
    | OpRetire(ids: seq<InstrumentId>)
    | OpCandles(batch: seq<Candle>)
    | OpQuotes(quotes: seq<Quote>, includeBenchmarks: bool)
    | OpContext(id: InstrumentId, at: Time)

  datatype Outcome =
    | Raised(error: Error)
    | Finished
    | Snapshots(snapshots: seq<Snapshot>)
    | Base(base: ContextBase)

  function OutcomeOf(error: Option<Error>): Outcome {
    match error
    case None => Finished
    case Some(e) => Raised(e)
  }

  datatype Stepped = Stepped(engine: Engine, outcome: Outcome)

  function StrategyContext(e: Engine, id: InstrumentId, t: Time): Stepped {
    match e.session
    case None => Stepped(e, Raised(NoSession))
    case Some(s) =>
      if id !in e.instruments then Stepped(e, Raised(NotInSession))
      else
        var base := Context(e, s, id, t);
        Stepped(e.(contextCache := e.contextCache[id := CachedContext(CacheKeyOf(e, s, id, t), base)]), Base(base))
  }

  function Step(e: Engine, op: Op): Stepped {
    match op
    case OpStart(s) => var (next, error) := StartSession(e, s); Stepped(next, OutcomeOf(error))
    case OpWarm(i, batch) => var (next, error) := Warm(e, i, batch); Stepped(next, OutcomeOf(error))
    case OpRetire(ids) => var (next, error) := Retire(e, ids); Stepped(next, OutcomeOf(error))
    case OpCandles(batch) => var (next, error) := IngestCandles(e, batch); Stepped(next, OutcomeOf(error))
    case OpQuotes(quotes, benchmarks) =>
      var r := IngestQuotes(e, quotes, benchmarks);
      Stepped(r.engine, if r.error.Some? then Raised(r.error.value) else Snapshots(r.snapshots))
    case OpContext(id, at) => StrategyContext(e, id, at)
  }

  datatype Run = Run(engine: Engine, outcomes: seq<Outcome>)

  function Execute(e: Engine, ops: seq<Op>): Run {
    if ops == [] then Run(e, [])
    else
      var before := Execute(e, ops[..|ops| - 1]);
      var last := Step(before.engine, ops[|ops| - 1]);
      Run(last.engine, before.outcomes + [last.outcome])
  }
}
