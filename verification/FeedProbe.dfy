/** One bounded feed-capability attempt (apps/api/src/discovery-feed-probe.ts) against an arbitrary
    environment: any clock, any answers. Instants are milliseconds. */
module FeedProbe {
  import opened Lists

  datatype ProbeSymbol = ProbeSymbol(providerSymbol: string, symbolId: nat)

  /** The frozen preflight; its schema fixes five symbols. */
  datatype Preflight = Preflight(symbols: seq<ProbeSymbol>, boundary: int, expiry: int)

  const TOLERANCE: int := 2000
  const SYMBOLS: nat := 5

  // ------------------------------------------------------------------ the environment

  /** A found symbol, its exchange normalised and its currency in upper case. */
  datatype RawSymbol = RawSymbol(
    symbol: string, symbolId: nat, exchange: string, currency: Option<string>, quotable: bool, tradable: bool)

  datatype Delay = Flag(delayed: bool) | Amount(seconds: real) | Unknown
  datatype RawQuote = RawQuote(symbolId: nat, delay: Delay)

  datatype Ohlcv = Ohlcv(open: real, high: real, low: real, close: real, volume: real)
  datatype RawCandle = RawCandle(start: int, end: int, ohlcv: Ohlcv)

  datatype Settlement = Completed | Failed | TimedOut

  /** What one performed call came to; a completed one may still lack a value. */
  datatype Outcome<+T> = Outcome(
    value: Option<T>, settlement: Settlement, error: Option<string>, dispatchedAt: Option<int>, settledAt: Option<int>)

  /** `now(k)` is the clock's k-th reading; the answers are indexed by the calls performed before. */
  datatype Environment = Environment(
    now: nat -> int, connects: bool,
    search: nat -> Outcome<seq<RawSymbol>>, quotes: nat -> Outcome<seq<RawQuote>>,
    candles: nat -> Outcome<seq<RawCandle>>, wire: seq<int>)

  // ------------------------------------------------------------------ the plan

  datatype Kind = Identity | Quote | Candle
  datatype Label = IdentityCheck(symbol: nat) | QuoteAt(read: nat) | CandleAt(read: nat, symbol: nat)
  datatype Request = Request(kind: Kind, name: Label, offset: int, symbolIndex: Option<nat>)

  const QUOTE_OFFSETS: seq<int> := [5000, 20000, 35000]
  const CANDLE_OFFSETS: seq<int> := [6000, 7000, 8000, 9000, 10000, 36000, 37000, 38000, 39000, 40000]

  function QuoteRequest(read: nat, offset: int): Request { Request(Quote, QuoteAt(read), offset, None) }

  function CandleRequest(read: nat, symbol: nat, offset: int): Request {
    Request(Candle, CandleAt(read, symbol), offset, Some(symbol))
  }

  const FIRST_READ: seq<Request> := [
    CandleRequest(1, 0, 6000), CandleRequest(1, 1, 7000), CandleRequest(1, 2, 8000), CandleRequest(1, 3, 9000),
    CandleRequest(1, 4, 10000)]
  const SECOND_READ: seq<Request> := [
    CandleRequest(2, 0, 36000), CandleRequest(2, 1, 37000), CandleRequest(2, 2, 38000), CandleRequest(2, 3, 39000),
    CandleRequest(2, 4, 40000)]

  /** The order the observations are made in. */
  const PLAN: seq<Request> :=
    [QuoteRequest(1, 5000)] + FIRST_READ + [QuoteRequest(2, 20000), QuoteRequest(3, 35000)] + SECOND_READ

  /** Sorting the quote and candle requests by offset interleaves the two reads. */
  method BuildObservationPlan() returns (plan: seq<Request>)
    ensures plan == PLAN
  {
    plan := [];
    for index := 0 to |QUOTE_OFFSETS|
      invariant plan == [QuoteRequest(1, 5000), QuoteRequest(2, 20000), QuoteRequest(3, 35000)][..index]
    {
      plan := plan + [QuoteRequest(index + 1, QUOTE_OFFSETS[index])];
    }
    for index := 0 to |CANDLE_OFFSETS|
      invariant |plan| == 3 + index
      invariant plan[..3] == [QuoteRequest(1, 5000), QuoteRequest(2, 20000), QuoteRequest(3, 35000)]
      invariant forall j :: 3 <= j < 3 + index ==>
        plan[j] == CandleRequest(if j < 8 then 1 else 2, (j - 3) % 5, CANDLE_OFFSETS[j - 3])
    {
      plan := plan + [CandleRequest(if index < 5 then 1 else 2, index % 5, CANDLE_OFFSETS[index])];
    }
    SortingInterleaves(plan);
    plan := SortByKey(plan, (r: Request) => r.offset);
  }

  lemma SortingInterleaves(unsorted: seq<Request>)
    requires |unsorted| == 13
    requires unsorted[..3] == [QuoteRequest(1, 5000), QuoteRequest(2, 20000), QuoteRequest(3, 35000)]
    requires forall j :: 3 <= j < 13 ==>
      unsorted[j] == CandleRequest(if j < 8 then 1 else 2, (j - 3) % 5, CANDLE_OFFSETS[j - 3])
    ensures SortByKey(unsorted, (r: Request) => r.offset) == PLAN
  {
    CandlesInOrder(unsorted);
    Interleaved([QuoteRequest(1, 5000)], [QuoteRequest(2, 20000), QuoteRequest(3, 35000)], unsorted);
    assert unsorted[..3] == [QuoteRequest(1, 5000)] + [QuoteRequest(2, 20000), QuoteRequest(3, 35000)];
    PlanAscends();
    SortedAsAscending(PLAN, unsorted);
  }

  lemma SortedAsAscending(plan: seq<Request>, unsorted: seq<Request>)
    requires multiset(plan) == multiset(unsorted)
    requires forall i, j :: 0 <= i < j < |plan| ==> plan[i].offset < plan[j].offset
    ensures SortByKey(unsorted, (r: Request) => r.offset) == plan
  {
    SortByKeySorts(unsorted, (r: Request) => r.offset);
    AscendingIsUnique(plan, SortByKey(unsorted, (r: Request) => r.offset), (r: Request) => r.offset);
  }

  lemma Interleaved(first: seq<Request>, rest: seq<Request>, unsorted: seq<Request>)
    requires unsorted == first + rest + FIRST_READ + SECOND_READ
    ensures multiset(first + FIRST_READ + rest + SECOND_READ) == multiset(unsorted)
  {
  }

  lemma CandlesInOrder(unsorted: seq<Request>)
    requires |unsorted| == 13
    requires forall j :: 3 <= j < 13 ==>
      unsorted[j] == CandleRequest(if j < 8 then 1 else 2, (j - 3) % 5, CANDLE_OFFSETS[j - 3])
    ensures unsorted == unsorted[..3] + FIRST_READ + SECOND_READ
  {
    assert unsorted[3] == FIRST_READ[0] && unsorted[4] == FIRST_READ[1] && unsorted[5] == FIRST_READ[2];
    assert unsorted[6] == FIRST_READ[3] && unsorted[7] == FIRST_READ[4] && unsorted[8] == SECOND_READ[0];
    assert unsorted[9] == SECOND_READ[1] && unsorted[10] == SECOND_READ[2] && unsorted[11] == SECOND_READ[3];
    assert unsorted[12] == SECOND_READ[4];
  }

  lemma PlanAscends()
    ensures |PLAN| == 13 && forall i, j :: 0 <= i < j < |PLAN| ==> PLAN[i].offset < PLAN[j].offset
  {
  }

  // ------------------------------------------------------------------ what is recorded

  datatype CallOutcome = Settled(settlement: Settlement) | NotAttempted | Expired

  datatype CallRecord = CallRecord(
    sequence: nat, name: Label, kind: Kind, symbolIndex: Option<nat>, plannedOffset: Option<int>,
    plannedAt: Option<int>, dispatchedAt: Option<int>, settledAt: Option<int>, offsetError: Option<int>,
    outcome: CallOutcome, error: Option<string>, requestedItems: nat)

  datatype IdentityOutcome = IdentityOutcome(symbolId: nat, matches: nat, resolvedSymbolId: Option<nat>, accepted: bool)

  datatype SymbolObservation = SymbolObservation(symbolId: nat, returned: bool, delay: Option<Delay>)

  datatype QuoteRead = QuoteRead(
    readIndex: nat, plannedOffset: int, settledAt: Option<int>, symbols: seq<SymbolObservation>, delayStop: bool)

  datatype BarObservation = BarObservation(
    symbolId: nat, readIndex: nat, targetStart: int, targetEnd: int, present: bool, ohlcv: Option<Ohlcv>)

  datatype Reason =
    | NotLiveMode | NotATradingDay | WindowElapsed | InsufficientPreflightLead | SessionUnavailable
    | ExpiryDuringIdentity | IdentityRequestFailed | IdentityRejected(symbol: nat)
    | ExpiryReached | ResponseTimeout | FirstError(error: Option<string>) | DispatchOffsetExceeded | QuoteDelayOrUnknown
    | RunCompleted(accepted: bool)

  datatype Status = CompletedAccepted | CompletedNotAccepted | Stopped | Blocked | Skipped

  function Distance(a: int, b: int): nat { if a < b then b - a else a - b }

  /** The record of a planned request that was not sent. */
  function Unsent(pf: Preflight, request: Request, sequence: nat, outcome: CallOutcome): CallRecord {
    CallRecord(sequence, request.name, request.kind, request.symbolIndex, Some(request.offset),
               Some(pf.boundary + request.offset), None, None, None, outcome, None,
               if request.kind.Quote? then |pf.symbols| else 1)
  }

  function OffsetError<T>(pf: Preflight, request: Request, call: Outcome<T>): Option<int> {
    if call.dispatchedAt.None? then None
    else Some(Distance(call.dispatchedAt.value, pf.boundary + request.offset))
  }

  function Sent<T>(pf: Preflight, request: Request, sequence: nat, call: Outcome<T>): CallRecord {
    CallRecord(sequence, request.name, request.kind, request.symbolIndex, Some(request.offset),
               Some(pf.boundary + request.offset), call.dispatchedAt, call.settledAt, OffsetError(pf, request, call),
               Settled(call.settlement), call.error, if request.kind.Quote? then |pf.symbols| else 1)
  }

  /** An identity call has no place in the plan. */
  function IdentityRecord(i: nat, outcome: CallOutcome, error: Option<string>, dispatchedAt: Option<int>,
                          settledAt: Option<int>): CallRecord
  {
    CallRecord(i + 1, IdentityCheck(i), Identity, Some(i), None, None, dispatchedAt, settledAt, None, outcome, error, 1)
  }

  predicate KnownUndelayed(delay: Option<Delay>) { delay == Some(Flag(false)) || delay == Some(Amount(0.0)) }

  function FindQuote(quotes: seq<RawQuote>, symbolId: nat): (r: Option<RawQuote>)
    ensures r.None? <==> forall q :: q in quotes ==> q.symbolId != symbolId
    ensures r.Some? ==> r.value in quotes && r.value.symbolId == symbolId
  {
    if quotes == [] then None
    else if quotes[0].symbolId == symbolId then Some(quotes[0])
    else FindQuote(quotes[1..], symbolId)
  }

  function ObserveSymbol(symbol: ProbeSymbol, quotes: seq<RawQuote>): SymbolObservation {
    var quote := FindQuote(quotes, symbol.symbolId);
    SymbolObservation(symbol.symbolId, quote.Some?, if quote.Some? then Some(quote.value.delay) else None)
  }

  function ObserveSymbols(pf: Preflight, quotes: seq<RawQuote>): seq<SymbolObservation> {
    seq(|pf.symbols|, i requires 0 <= i < |pf.symbols| => ObserveSymbol(pf.symbols[i], quotes))
  }

  /** A returned quote that is delayed, or may be. */
  predicate AnyDelay(symbols: seq<SymbolObservation>) {
    exists i :: 0 <= i < |symbols| && symbols[i].returned && !KnownUndelayed(symbols[i].delay)
  }

  function FindCandle(candles: seq<RawCandle>, start: int, end: int): (r: Option<RawCandle>)
    ensures r.None? <==> forall c :: c in candles ==> !(c.start == start && c.end == end)
    ensures r.Some? ==> r.value in candles && r.value.start == start && r.value.end == end
  {
    if candles == [] then None
    else if candles[0].start == start && candles[0].end == end then Some(candles[0])
    else FindCandle(candles[1..], start, end)
  }

  function ObserveBar(pf: Preflight, symbolId: nat, readIndex: nat, candles: seq<RawCandle>): BarObservation {
    var target := FindCandle(candles, pf.boundary - 300000, pf.boundary);
    BarObservation(symbolId, readIndex, pf.boundary - 300000, pf.boundary, target.Some?,
                   if target.Some? then Some(target.value.ohlcv) else None)
  }

  // ------------------------------------------------------------------ waiting

  /** A provider call, and how many looks at the clock went before it. */
  datatype Asked = Asked(name: Label, looks: nat)

  /** What the attempt is given to work with: every look at the clock and every provider call leaves its mark. */
  class Deps {
    const env: Environment
    var readings: nat
    var asked: seq<Asked>

    constructor (env: Environment)
      ensures this.env == env && readings == 0 && asked == []
    {
      this.env := env;
      readings, asked := 0, [];
    }

    method Now() returns (t: int)
      modifies this`readings
      ensures t == env.now(old(readings)) && readings == old(readings) + 1
    {
      t := env.now(readings);
      readings := readings + 1;
    }

    method Search(name: Label) returns (call: Outcome<seq<RawSymbol>>)
      modifies this`asked
      ensures call == env.search(|old(asked)|) && asked == old(asked) + [Asked(name, readings)]
    {
      call := env.search(|asked|);
      asked := asked + [Asked(name, readings)];
    }

    method Quotes(name: Label) returns (call: Outcome<seq<RawQuote>>)
      modifies this`asked
      ensures call == env.quotes(|old(asked)|) && asked == old(asked) + [Asked(name, readings)]
    {
      call := env.quotes(|asked|);
      asked := asked + [Asked(name, readings)];
    }

    method Candles(name: Label) returns (call: Outcome<seq<RawCandle>>)
      modifies this`asked
      ensures call == env.candles(|old(asked)|) && asked == old(asked) + [Asked(name, readings)]
    {
      call := env.candles(|asked|);
      asked := asked + [Asked(name, readings)];
    }
  }

  /** What the k-th look of a wait must reach to end it: the target, and at every other look the earlier of
      target and limit. */
  function EndsWait(target: int, limit: int, k: nat): int {
    if k % 2 == 0 || target < limit then target else limit
  }

  /** None of the looks `from`, .., `to - 1` ends a wait that began at `from`. */
  ghost predicate StillWaiting(env: Environment, target: int, limit: int, from: nat, to: nat) {
    forall k :: from <= k < to ==> env.now(k) < EndsWait(target, limit, k - from)
  }

  /** The looks `from`, .., `to - 1` are a wait: the last of them ends it and none before does. */
  ghost predicate Waited(env: Environment, target: int, limit: int, from: nat, to: nat) {
    from < to && env.now(to - 1) >= EndsWait(target, limit, to - 1 - from) &&
    StillWaiting(env, target, limit, from, to - 1)
  }

  lemma NotYetWaited(env: Environment, target: int, limit: int, from: nat)
    ensures StillWaiting(env, target, limit, from, from)
  {
  }

  lemma WaitsOn(env: Environment, target: int, limit: int, from: nat, to: nat)
    requires from <= to && StillWaiting(env, target, limit, from, to)
    requires env.now(to) < EndsWait(target, limit, to - from)
    ensures StillWaiting(env, target, limit, from, to + 1)
  {
  }

  /** Looks until the first reading that ends the wait, and no further. */
  method WaitUntil(deps: Deps, target: int, limit: int, ghost horizon: nat)
    requires forall k :: k >= horizon ==> deps.env.now(k) >= limit
    modifies deps`readings
    ensures Waited(deps.env, target, limit, old(deps.readings), deps.readings)
  {
    hide StillWaiting;
    ghost var from := deps.readings;
    NotYetWaited(deps.env, target, limit, from);
    var t := deps.Now();
    while t < target
      invariant deps.readings > from && t == deps.env.now(deps.readings - 1)
      invariant (deps.readings - from) % 2 == 1
      invariant StillWaiting(deps.env, target, limit, from, deps.readings - 1)
      decreases if deps.readings > horizon then 0 else horizon + 1 - deps.readings
    {
      var stopAt := if target < limit then target else limit;
      WaitsOn(deps.env, target, limit, from, deps.readings - 1);
      var now := deps.Now();
      if stopAt - now <= 0 {
        return;
      }
      WaitsOn(deps.env, target, limit, from, deps.readings - 1);
      t := deps.Now();
    }
  }

  // ------------------------------------------------------------------ the identity phase

  /** The symbol is the one exact match, listed and quoted as expected. */
  predicate Accepted(symbol: ProbeSymbol, candidates: seq<RawSymbol>) {
    var exact := Filter(candidates, (c: RawSymbol) => c.symbol == symbol.providerSymbol);
    |exact| == 1 && exact[0].symbolId == symbol.symbolId && exact[0].exchange == "TSX" &&
    exact[0].currency == Some("CAD") && exact[0].quotable && exact[0].tradable
  }

  function Verdict(symbol: ProbeSymbol, call: Outcome<seq<RawSymbol>>): IdentityOutcome {
    if call.settlement != Completed || call.value.None? then IdentityOutcome(symbol.symbolId, 0, None, false)
    else
      var exact := Filter(call.value.value, (c: RawSymbol) => c.symbol == symbol.providerSymbol);
      IdentityOutcome(symbol.symbolId, |exact|, if |exact| > 0 then Some(exact[0].symbolId) else None,
                      Accepted(symbol, call.value.value))
  }

  function Rejection(i: nat, call: Outcome<seq<RawSymbol>>): (reason: Reason)
    ensures reason != ExpiryDuringIdentity
  {
    if call.settlement != Completed || call.value.None? then IdentityRequestFailed else IdentityRejected(i)
  }

  /** `n` symbols were searched, one call each, and every one before the last was accepted. */
  ghost predicate IdentityTrace(pf: Preflight, env: Environment, identity: seq<IdentityOutcome>,
                                calls: seq<CallRecord>, n: nat, stop: Option<Reason>)
    requires |pf.symbols| == SYMBOLS
  {
    && |identity| == n <= SYMBOLS && n <= |calls|
    && (forall i :: 0 <= i < n ==>
          && identity[i] == Verdict(pf.symbols[i], env.search(i))
          && calls[i] == IdentityRecord(i, Settled(env.search(i).settlement), env.search(i).error,
                                        env.search(i).dispatchedAt, env.search(i).settledAt))
    && (forall i :: 0 <= i < n - 1 ==> identity[i].accepted)
    && match stop
       case None => |calls| == n && (n > 0 ==> identity[n - 1].accepted)
       case Some(ExpiryDuringIdentity) =>
         && n < SYMBOLS && (n > 0 ==> identity[n - 1].accepted)
         && |calls| == n + 1 && calls[n] == IdentityRecord(n, Expired, None, None, None)
       case Some(reason) =>
         && 0 < n == |calls| && !identity[n - 1].accepted && reason == Rejection(n - 1, env.search(n - 1))
  }

  ghost predicate AskedAtOnce(pf: Preflight, env: Environment, asked: seq<Asked>, from: nat, i: nat)
    requires i < |asked|
  {
    asked[i].looks == from + i + 1 && env.now(asked[i].looks - 1) < pf.expiry
  }

  /** Each identity call follows one look, before the expiry; a look at the expiry ends the phase. */
  ghost predicate IdentityTimed(
      pf: Preflight, env: Environment, asked: seq<Asked>, from: nat, stop: Option<Reason>, readings: nat)
  {
    && (forall i :: 0 <= i < |asked| ==> AskedAtOnce(pf, env, asked, from, i))
    && (if stop == Some(ExpiryDuringIdentity)
        then readings == from + |asked| + 1 && env.now(readings - 1) >= pf.expiry
        else readings == from + |asked|)
  }

  /** An identity call is judged by its exact matches alone. */
  method JudgeSymbol(symbol: ProbeSymbol, i: nat, call: Outcome<seq<RawSymbol>>)
    returns (verdict: IdentityOutcome, stop: Option<Reason>)
    ensures verdict == Verdict(symbol, call)
    ensures stop == if verdict.accepted then None else Some(Rejection(i, call))
  {
    if call.settlement != Completed || call.value.None? {
      return IdentityOutcome(symbol.symbolId, 0, None, false), Some(IdentityRequestFailed);
    }
    var matches := Filter(call.value.value, (c: RawSymbol) => c.symbol == symbol.providerSymbol);
    var first := if |matches| > 0 then Some(matches[0]) else None;
    var accepted := |matches| == 1 && first.Some? && first.value.symbolId == symbol.symbolId &&
                    first.value.exchange == "TSX" && first.value.currency == Some("CAD") &&
                    first.value.quotable && first.value.tradable;
    var resolved := if first.Some? then Some(first.value.symbolId) else None;
    verdict := IdentityOutcome(symbol.symbolId, |matches|, resolved, accepted);
    stop := if accepted then None else Some(IdentityRejected(i));
  }

  method VerifyIdentity(pf: Preflight, deps: Deps)
    returns (identity: seq<IdentityOutcome>, calls: seq<CallRecord>, stop: Option<Reason>)
    requires |pf.symbols| == SYMBOLS && deps.asked == []
    modifies deps
    ensures IdentityTrace(pf, deps.env, identity, calls, |deps.asked|, stop)
    ensures IdentityTimed(pf, deps.env, deps.asked, old(deps.readings), stop, deps.readings)
    ensures forall i :: 0 <= i < |deps.asked| ==> deps.asked[i].name == IdentityCheck(i)
    ensures stop.None? ==> |deps.asked| == SYMBOLS
  {
    hide Verdict, Rejection, IdentityRecord, IdentityTrace, IdentityTimed;
    identity, calls, stop := [], [], None;
    NothingChecked(pf, deps.env, deps.readings);
    for i := 0 to |pf.symbols|
      invariant |deps.asked| == |calls| == i && stop.None?
      invariant IdentityTrace(pf, deps.env, identity, calls, |deps.asked|, stop)
      invariant IdentityTimed(pf, deps.env, deps.asked, old(deps.readings), stop, deps.readings)
      invariant forall j :: 0 <= j < i ==> deps.asked[j].name == IdentityCheck(j)
    {
      IdentityGoesOn(pf, deps.env, identity, calls, deps.asked, old(deps.readings), deps.readings);
      var now := deps.Now();
      if now >= pf.expiry {
        calls := calls + [IdentityRecord(|calls|, Expired, None, None, None)];
        stop := Some(ExpiryDuringIdentity);
        return;
      }
      var call := deps.Search(IdentityCheck(i));
      calls := calls + [IdentityRecord(|calls|, Settled(call.settlement), call.error,
                                       call.dispatchedAt, call.settledAt)];
      var verdict, fault := JudgeSymbol(pf.symbols[i], i, call);
      identity, stop := identity + [verdict], fault;
      if stop.Some? {
        return;
      }
    }
  }

  lemma NothingChecked(pf: Preflight, env: Environment, from: nat)
    requires |pf.symbols| == SYMBOLS
    ensures IdentityTrace(pf, env, [], [], 0, None) && IdentityTimed(pf, env, [], from, None, from)
  {
  }

  /** The next look finds the expiry, or the next symbol is searched. */
  lemma IdentityGoesOn(pf: Preflight, env: Environment, identity: seq<IdentityOutcome>, calls: seq<CallRecord>,
                       asked: seq<Asked>, from: nat, readings: nat)
    requires |pf.symbols| == SYMBOLS && |asked| < SYMBOLS
    requires IdentityTrace(pf, env, identity, calls, |asked|, None)
    requires IdentityTimed(pf, env, asked, from, None, readings)
    ensures env.now(readings) >= pf.expiry ==>
      && IdentityTrace(pf, env, identity, calls + [IdentityRecord(|asked|, Expired, None, None, None)], |asked|,
                       Some(ExpiryDuringIdentity))
      && IdentityTimed(pf, env, asked, from, Some(ExpiryDuringIdentity), readings + 1)
    ensures env.now(readings) < pf.expiry ==>
      var i, call := |asked|, env.search(|asked|);
      var verdict := Verdict(pf.symbols[i], call);
      var stop := if verdict.accepted then None else Some(Rejection(i, call));
      var record := IdentityRecord(i, Settled(call.settlement), call.error, call.dispatchedAt, call.settledAt);
      && IdentityTrace(pf, env, identity + [verdict], calls + [record], i + 1, stop)
      && IdentityTimed(pf, env, asked + [Asked(IdentityCheck(i), readings + 1)], from, stop, readings + 1)
  {
    hide Verdict, Rejection, IdentityRecord;
    if env.now(readings) < pf.expiry {
      var next := asked + [Asked(IdentityCheck(|asked|), readings + 1)];
      forall i | 0 <= i < |next| ensures AskedAtOnce(pf, env, next, from, i) {
        assert i < |asked| ==> AskedAtOnce(pf, env, asked, from, i);
      }
    }
  }

  // ------------------------------------------------------------------ the observation phase

  function CallFault<T>(pf: Preflight, request: Request, call: Outcome<T>): Option<Reason> {
    if call.settlement != Completed || call.value.None? then
      Some(if call.settlement.TimedOut? then ResponseTimeout else FirstError(call.error))
    else if OffsetError(pf, request, call).Some? && OffsetError(pf, request, call).value > TOLERANCE then
      Some(DispatchOffsetExceeded)
    else None
  }

  /** Why the settled call for the k-th planned request ends the plan, if it does. Five identity calls precede. */
  function Interruption(pf: Preflight, env: Environment, k: nat): (stop: Option<Reason>)
    requires k < |PLAN|
    ensures stop != Some(ExpiryReached) && stop != Some(ExpiryDuringIdentity)
  {
    if PLAN[k].kind.Quote? then
      var call := env.quotes(SYMBOLS + k);
      var fault := CallFault(pf, PLAN[k], call);
      if fault.None? && AnyDelay(ObserveSymbols(pf, call.value.value)) then Some(QuoteDelayOrUnknown) else fault
    else CallFault(pf, PLAN[k], env.candles(SYMBOLS + k))
  }

  function SettledRecord(pf: Preflight, env: Environment, k: nat): CallRecord
    requires k < |PLAN|
  {
    if PLAN[k].kind.Quote? then Sent(pf, PLAN[k], SYMBOLS + k + 1, env.quotes(SYMBOLS + k))
    else Sent(pf, PLAN[k], SYMBOLS + k + 1, env.candles(SYMBOLS + k))
  }

  ghost predicate Clear(pf: Preflight, env: Environment, n: nat)
    requires n <= |PLAN|
  {
    forall k :: 0 <= k < n ==> Interruption(pf, env, k).None?
  }

  ghost predicate NoneSentFrom(pf: Preflight, calls: seq<CallRecord>, from: nat)
    requires |calls| <= |PLAN|
  {
    forall j :: from <= j < |calls| ==> calls[j] == Unsent(pf, PLAN[j], SYMBOLS + j + 1, NotAttempted)
  }

  ghost predicate SentUpTo(pf: Preflight, env: Environment, calls: seq<CallRecord>, a: nat)
    requires a <= |calls| <= |PLAN|
  {
    forall j :: 0 <= j < a ==> calls[j] == SettledRecord(pf, env, j)
  }

  /** The first `k` planned requests were gone through and the first `a` of them sent, one call each: all went
      well before the last, and nothing is sent after the request that stopped the plan. */
  ghost predicate PlanTrace(
      pf: Preflight, env: Environment, calls: seq<CallRecord>, a: nat, stop: Option<Reason>, k: nat)
  {
    && a <= k == |calls| <= |PLAN|
    && SentUpTo(pf, env, calls, a)
    && match stop
       case None => a == k && Clear(pf, env, k)
       case Some(ExpiryReached) =>
         && a < k && Clear(pf, env, a) && calls[a] == Unsent(pf, PLAN[a], SYMBOLS + a + 1, Expired)
         && NoneSentFrom(pf, calls, a + 1)
       case Some(reason) =>
         && 0 < a && Clear(pf, env, a - 1) && Interruption(pf, env, a - 1) == stop
         && NoneSentFrom(pf, calls, a)
  }

  function ReadOf(pf: Preflight, env: Environment, k: nat): QuoteRead
    requires k < |PLAN| && PLAN[k].kind.Quote? && env.quotes(SYMBOLS + k).value.Some?
  {
    var symbols := ObserveSymbols(pf, env.quotes(SYMBOLS + k).value.value);
    QuoteRead(PLAN[k].name.read, PLAN[k].offset, env.quotes(SYMBOLS + k).settledAt, symbols, AnyDelay(symbols))
  }

  /** The quote reads of the first `a` requests: one for each that settled in time, the delayed one included. */
  function ReadsOf(pf: Preflight, env: Environment, a: nat): seq<QuoteRead>
    requires a <= |PLAN|
  {
    if a == 0 then []
    else
      var rest := ReadsOf(pf, env, a - 1);
      if PLAN[a - 1].kind.Quote? && CallFault(pf, PLAN[a - 1], env.quotes(SYMBOLS + a - 1)).None?
      then rest + [ReadOf(pf, env, a - 1)]
      else rest
  }

  function BarOf(pf: Preflight, env: Environment, k: nat): BarObservation
    requires |pf.symbols| == SYMBOLS
    requires k < |PLAN| && PLAN[k].kind.Candle? && env.candles(SYMBOLS + k).value.Some?
  {
    var request := PLAN[k].name;
    ObserveBar(pf, pf.symbols[request.symbol].symbolId, request.read, env.candles(SYMBOLS + k).value.value)
  }

  function BarsOf(pf: Preflight, env: Environment, a: nat): seq<BarObservation>
    requires |pf.symbols| == SYMBOLS && a <= |PLAN|
  {
    if a == 0 then []
    else
      var rest := BarsOf(pf, env, a - 1);
      if PLAN[a - 1].kind.Candle? && CallFault(pf, PLAN[a - 1], env.candles(SYMBOLS + a - 1)).None?
      then rest + [BarOf(pf, env, a - 1)]
      else rest
  }

  function CompletedQuotes(calls: seq<CallRecord>): nat {
    if calls == [] then 0
    else
      CompletedQuotes(calls[..|calls| - 1]) +
      (if calls[|calls| - 1].kind.Quote? && calls[|calls| - 1].outcome == Settled(Completed) then 1 else 0)
  }

  /** Counting completed quote calls numbers the reads as the plan does. */
  lemma {:induction false} CountIsRead(pf: Preflight, env: Environment, calls: seq<CallRecord>, k: nat)
    requires |calls| == SYMBOLS + k && k <= |PLAN| && Clear(pf, env, k)
    requires forall i :: 0 <= i < SYMBOLS ==> calls[i].kind.Identity?
    requires forall j :: 0 <= j < k ==> calls[SYMBOLS + j] == SettledRecord(pf, env, j)
    ensures CompletedQuotes(calls) == (if k == 0 then 0 else if k <= 6 then 1 else if k == 7 then 2 else 3)
    decreases k
  {
    if k == 0 {
      NoQuotes(calls);
    } else {
      CountIsRead(pf, env, calls[..|calls| - 1], k - 1);
      assert Interruption(pf, env, k - 1).None?;
      assert calls[|calls| - 1] == SettledRecord(pf, env, k - 1);
    }
  }

  lemma {:induction false} NoQuotes(calls: seq<CallRecord>)
    requires forall i :: 0 <= i < |calls| ==> calls[i].kind.Identity?
    ensures CompletedQuotes(calls) == 0
  {
    if calls != [] {
      NoQuotes(calls[..|calls| - 1]);
    }
  }

  /** How many looks went before the j-th planned request was waited for. */
  function LooksBefore(sent: seq<Asked>, from: nat, j: nat): nat
    requires j <= |sent|
  {
    if j == 0 then from else sent[j - 1].looks
  }

  /** The looks for the j-th planned request: a wait for its instant, and one more to check the expiry. */
  ghost predicate LookedFor(pf: Preflight, env: Environment, j: nat, from: nat, to: nat)
    requires j < |PLAN|
  {
    0 < to && Waited(env, pf.boundary + PLAN[j].offset, pf.expiry, from, to - 1)
  }

  /** Each planned request was sent right after its looks, the last of them before the expiry; one whose last look
      was not ended the plan. */
  ghost predicate PlanTimed(
      pf: Preflight, env: Environment, sent: seq<Asked>, from: nat, stop: Option<Reason>, readings: nat)
  {
    && |sent| <= |PLAN|
    && (forall j :: 0 <= j < |sent| ==> SentInTurn(pf, env, sent, from, j))
    && var last := LooksBefore(sent, from, |sent|);
       if stop == Some(ExpiryReached)
       then |sent| < |PLAN| && LookedFor(pf, env, |sent|, last, readings) && env.now(readings - 1) >= pf.expiry
       else readings == last
  }

  ghost predicate SentInTurn(pf: Preflight, env: Environment, sent: seq<Asked>, from: nat, j: nat)
    requires j < |sent| <= |PLAN|
  {
    LookedFor(pf, env, j, LooksBefore(sent, from, j), sent[j].looks) && env.now(sent[j].looks - 1) < pf.expiry
  }

  lemma CheckedAfterWait(pf: Preflight, env: Environment, j: nat, from: nat, to: nat)
    requires j < |PLAN| && 0 < to && Waited(env, pf.boundary + PLAN[j].offset, pf.expiry, from, to - 1)
    ensures LookedFor(pf, env, j, from, to)
  {
  }

  lemma TimedSends(pf: Preflight, env: Environment, sent: seq<Asked>, from: nat, before: nat, readings: nat,
                   stop: Option<Reason>)
    requires PlanTimed(pf, env, sent, from, None, before) && |sent| < |PLAN| && stop != Some(ExpiryReached)
    requires LookedFor(pf, env, |sent|, before, readings) && env.now(readings - 1) < pf.expiry
    ensures PlanTimed(pf, env, sent + [Asked(PLAN[|sent|].name, readings)], from, stop, readings)
  {
    hide LookedFor;
    var next := sent + [Asked(PLAN[|sent|].name, readings)];
    forall j | 0 <= j < |next| ensures SentInTurn(pf, env, next, from, j) {
      assert LooksBefore(next, from, j) == LooksBefore(sent, from, j);
      assert j < |sent| ==> SentInTurn(pf, env, sent, from, j);
    }
  }

  lemma TimedExpires(pf: Preflight, env: Environment, sent: seq<Asked>, from: nat, before: nat, readings: nat)
    requires PlanTimed(pf, env, sent, from, None, before) && |sent| < |PLAN|
    requires LookedFor(pf, env, |sent|, before, readings) && env.now(readings - 1) >= pf.expiry
    ensures PlanTimed(pf, env, sent, from, Some(ExpiryReached), readings)
  {
    hide LookedFor;
  }

  // How the trace goes on with the k-th request.

  lemma TraceSkips(pf: Preflight, env: Environment, calls: seq<CallRecord>, a: nat, stop: Option<Reason>, k: nat)
    requires PlanTrace(pf, env, calls, a, stop, k) && stop.Some? && k < |PLAN|
    ensures PlanTrace(pf, env, calls + [Unsent(pf, PLAN[k], SYMBOLS + k + 1, NotAttempted)], a, stop, k + 1)
  {
    hide SettledRecord, Interruption, Unsent, Clear;
  }

  lemma TraceExpires(pf: Preflight, env: Environment, calls: seq<CallRecord>, a: nat, k: nat)
    requires PlanTrace(pf, env, calls, a, None, k) && k < |PLAN|
    ensures PlanTrace(pf, env, calls + [Unsent(pf, PLAN[k], SYMBOLS + k + 1, Expired)], a, Some(ExpiryReached), k + 1)
  {
    hide SettledRecord, Interruption, Unsent, Clear;
  }

  lemma TraceSends(pf: Preflight, env: Environment, calls: seq<CallRecord>, k: nat)
    requires PlanTrace(pf, env, calls, k, None, k) && k < |PLAN|
    ensures PlanTrace(pf, env, calls + [SettledRecord(pf, env, k)], k + 1, Interruption(pf, env, k), k + 1)
  {
    hide SettledRecord, Interruption, Unsent;
  }

  /** Makes the one call of a quote request and records what it brought. */
  method ObserveQuote(pf: Preflight, deps: Deps, request: Request, calls: seq<CallRecord>)
    returns (record: CallRecord, read: Option<QuoteRead>, stop: Option<Reason>)
    requires SYMBOLS <= |calls| == |deps.asked|
    requires var k := |calls| - SYMBOLS;
             && k < |PLAN| && request == PLAN[k] && request.kind.Quote? && Clear(pf, deps.env, k)
             && (forall i :: 0 <= i < SYMBOLS ==> calls[i].kind.Identity?)
             && (forall j :: 0 <= j < k ==> calls[SYMBOLS + j] == SettledRecord(pf, deps.env, j))
    modifies deps`asked
    ensures deps.asked == old(deps.asked) + [Asked(request.name, deps.readings)]
    ensures var k := |calls| - SYMBOLS;
            && record == SettledRecord(pf, deps.env, k) && stop == Interruption(pf, deps.env, k)
            && ReadsOf(pf, deps.env, k + 1) == ReadsOf(pf, deps.env, k) + (if read.Some? then [read.value] else [])
  {
    hide ObserveSymbols, AnyDelay, Clear;
    CountIsRead(pf, deps.env, calls, |calls| - SYMBOLS);
    var call := deps.Quotes(request.name);
    record, read, stop := Sent(pf, request, |calls| + 1, call), None, None;
    if call.settlement != Completed || call.value.None? {
      stop := Some(if call.settlement.TimedOut? then ResponseTimeout else FirstError(call.error));
      return;
    }
    if record.offsetError.Some? && record.offsetError.value > TOLERANCE {
      stop := Some(DispatchOffsetExceeded);
      return;
    }
    assert (calls + [record])[..|calls|] == calls;
    var readIndex := CompletedQuotes(calls + [record]);
    var symbols := ObserveSymbols(pf, call.value.value);
    read := Some(QuoteRead(readIndex, request.offset, record.settledAt, symbols, AnyDelay(symbols)));
    if read.value.delayStop {
      stop := Some(QuoteDelayOrUnknown);
    }
  }

  method ObserveCandle(pf: Preflight, deps: Deps, request: Request, sequence: nat)
    returns (record: CallRecord, bar: Option<BarObservation>, stop: Option<Reason>)
    requires |pf.symbols| == SYMBOLS <= |deps.asked| && sequence == |deps.asked| + 1
    requires var k := |deps.asked| - SYMBOLS; k < |PLAN| && request == PLAN[k] && request.kind.Candle?
    modifies deps`asked
    ensures deps.asked == old(deps.asked) + [Asked(request.name, deps.readings)]
    ensures var k := |old(deps.asked)| - SYMBOLS;
            && record == SettledRecord(pf, deps.env, k) && stop == Interruption(pf, deps.env, k)
            && BarsOf(pf, deps.env, k + 1) == BarsOf(pf, deps.env, k) + (if bar.Some? then [bar.value] else [])
  {
    var call := deps.Candles(request.name);
    record, bar, stop := Sent(pf, request, sequence, call), None, None;
    if call.settlement != Completed || call.value.None? {
      stop := Some(if call.settlement.TimedOut? then ResponseTimeout else FirstError(call.error));
      return;
    }
    if record.offsetError.Some? && record.offsetError.value > TOLERANCE {
      stop := Some(DispatchOffsetExceeded);
      return;
    }
    var symbol := pf.symbols[if request.symbolIndex.Some? then request.symbolIndex.value else 0];
    var readIndex := if request.offset < 20000 then 1 else 2;
    bar := Some(ObserveBar(pf, symbol.symbolId, readIndex, call.value.value));
  }

  lemma OtherKind(pf: Preflight, env: Environment, k: nat)
    requires |pf.symbols| == SYMBOLS && k < |PLAN|
    ensures PLAN[k].kind.Quote? ==> BarsOf(pf, env, k + 1) == BarsOf(pf, env, k)
    ensures PLAN[k].kind.Candle? ==> ReadsOf(pf, env, k + 1) == ReadsOf(pf, env, k)
    ensures PLAN[k].kind.Quote? || PLAN[k].kind.Candle?
  {
  }

  method ObservePlan(pf: Preflight, deps: Deps, verified: seq<CallRecord>, ghost horizon: nat)
    returns (calls: seq<CallRecord>, quoteReads: seq<QuoteRead>, bars: seq<BarObservation>, stop: Option<Reason>)
    requires |pf.symbols| == SYMBOLS == |verified| == |deps.asked|
    requires forall i :: 0 <= i < SYMBOLS ==> verified[i].kind.Identity?
    requires forall k :: k >= horizon ==> deps.env.now(k) >= pf.expiry
    modifies deps
    ensures |calls| == SYMBOLS + |PLAN| && calls[..SYMBOLS] == verified
    ensures SYMBOLS <= |deps.asked| <= SYMBOLS + |PLAN| && deps.asked[..SYMBOLS] == old(deps.asked)
    ensures forall j :: 0 <= j < |deps.asked| - SYMBOLS ==> deps.asked[SYMBOLS + j].name == PLAN[j].name
    ensures PlanTimed(pf, deps.env, deps.asked[SYMBOLS..], old(deps.readings), stop, deps.readings)
    ensures PlanTrace(pf, deps.env, calls[SYMBOLS..], |deps.asked| - SYMBOLS, stop, |PLAN|)
    ensures quoteReads == ReadsOf(pf, deps.env, |deps.asked| - SYMBOLS)
    ensures bars == BarsOf(pf, deps.env, |deps.asked| - SYMBOLS)
  {
    hide *;
    calls, quoteReads, bars, stop := verified, [], [], None;
    var plan := BuildObservationPlan();
    NothingYet(pf, deps.env);
    assert calls[SYMBOLS..] == [] && deps.asked[SYMBOLS..] == [];
    for k := 0 to |plan|
      invariant |calls| == SYMBOLS + k && calls[..SYMBOLS] == verified
      invariant SYMBOLS <= |deps.asked| <= SYMBOLS + k && deps.asked[..SYMBOLS] == old(deps.asked)
      invariant forall j :: 0 <= j < |deps.asked| - SYMBOLS ==> deps.asked[SYMBOLS + j].name == PLAN[j].name
      invariant PlanTimed(pf, deps.env, deps.asked[SYMBOLS..], old(deps.readings), stop, deps.readings)
      invariant PlanTrace(pf, deps.env, calls[SYMBOLS..], |deps.asked| - SYMBOLS, stop, k)
      invariant quoteReads == ReadsOf(pf, deps.env, |deps.asked| - SYMBOLS)
      invariant bars == BarsOf(pf, deps.env, |deps.asked| - SYMBOLS)
    {
      var request := plan[k];
      ghost var done, a := calls[SYMBOLS..], |deps.asked| - SYMBOLS;
      ghost var sent, before := deps.asked[SYMBOLS..], deps.readings;
      if stop.Some? {
        TraceSkips(pf, deps.env, done, a, stop, k);
        SuffixSnoc(calls, Unsent(pf, request, |calls| + 1, NotAttempted), SYMBOLS);
        calls := calls + [Unsent(pf, request, |calls| + 1, NotAttempted)];
        continue;
      }
      WaitUntil(deps, pf.boundary + request.offset, pf.expiry, horizon);
      var now := deps.Now();
      SoFarClear(pf, deps.env, calls, a, k);
      CheckedAfterWait(pf, deps.env, k, before, deps.readings);
      if now >= pf.expiry {
        TraceExpires(pf, deps.env, done, a, k);
        TimedExpires(pf, deps.env, sent, old(deps.readings), before, deps.readings);
        SuffixSnoc(calls, Unsent(pf, request, |calls| + 1, Expired), SYMBOLS);
        calls := calls + [Unsent(pf, request, |calls| + 1, Expired)];
        stop := Some(ExpiryReached);
        continue;
      }
      OtherKind(pf, deps.env, k);
      TraceSends(pf, deps.env, done, k);
      TimedSends(pf, deps.env, sent, old(deps.readings), before, deps.readings, Interruption(pf, deps.env, k));
      SuffixSnoc(calls, SettledRecord(pf, deps.env, k), SYMBOLS);
      SuffixSnoc(deps.asked, Asked(request.name, deps.readings), SYMBOLS);
      if request.kind.Quote? {
        var record, read, fault := ObserveQuote(pf, deps, request, calls);
        calls, stop := calls + [record], fault;
        quoteReads := if read.Some? then quoteReads + [read.value] else quoteReads;
        continue;
      }
      var record, bar, fault := ObserveCandle(pf, deps, request, |calls| + 1);
      calls, stop := calls + [record], fault;
      bars := if bar.Some? then bars + [bar.value] else bars;
    }
  }

  lemma NothingYet(pf: Preflight, env: Environment)
    requires |pf.symbols| == SYMBOLS
    ensures PlanTrace(pf, env, [], 0, None, 0) && ReadsOf(pf, env, 0) == [] && BarsOf(pf, env, 0) == []
    ensures forall from :: PlanTimed(pf, env, [], from, None, from)
  {
  }

  lemma SoFarClear(pf: Preflight, env: Environment, calls: seq<CallRecord>, a: nat, k: nat)
    requires |calls| == SYMBOLS + k && PlanTrace(pf, env, calls[SYMBOLS..], a, None, k)
    ensures a == k && Clear(pf, env, k)
    ensures forall j :: 0 <= j < k ==> calls[SYMBOLS + j] == SettledRecord(pf, env, j)
  {
    hide SettledRecord, Interruption, Unsent, Clear;
    forall j | 0 <= j < k ensures calls[SYMBOLS + j] == SettledRecord(pf, env, j) {
      assert calls[SYMBOLS..][j] == calls[SYMBOLS + j];
    }
  }
}
