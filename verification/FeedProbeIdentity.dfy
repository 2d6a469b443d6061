/** What a feed-probe attempt takes for a verified identity, for an undelayed quote and for the target bar, said of the
    provider's answers alone (apps/api/src/discovery-feed-probe.ts:538-823). */
module FeedProbeIdentity {
  import opened Lists
  import opened FeedProbe
  import opened FeedProbeAttempts

  // ------------------------------------------------------------------ one answer to a search

  /** The only candidate with that symbol. */
  predicate OnlyNamed(candidates: seq<RawSymbol>, name: string, m: int) {
    && 0 <= m < |candidates| && candidates[m].symbol == name
    && forall j :: 0 <= j < |candidates| && j != m ==> candidates[j].symbol != name
  }

  /** The call completed with a value, in which exactly one candidate has the provider symbol: the preflight's id,
      listed on TSX in CAD, quotable and tradable. */
  ghost predicate Identified(symbol: ProbeSymbol, call: Outcome<seq<RawSymbol>>) {
    && call.settlement == Completed && call.value.Some?
    && exists m :: OnlyNamed(call.value.value, symbol.providerSymbol, m) &&
                   call.value.value[m] ==
                   RawSymbol(symbol.providerSymbol, symbol.symbolId, "TSX", Some("CAD"), true, true)
  }

  lemma AcceptedIsOnly(symbol: ProbeSymbol, candidates: seq<RawSymbol>)
    ensures Accepted(symbol, candidates) <==>
            exists m :: OnlyNamed(candidates, symbol.providerSymbol, m) &&
                        candidates[m] ==
                        RawSymbol(symbol.providerSymbol, symbol.symbolId, "TSX", Some("CAD"), true, true)
  {
    var named := (c: RawSymbol) => c.symbol == symbol.providerSymbol;
    var exact := Filter(candidates, named);
    if Accepted(symbol, candidates) {
      assert exact == [exact[0]] && exact[0] in exact;
      SingleSource(candidates, named, exact[0]);
      var i :| 0 <= i < |candidates| && candidates[i] == exact[0] && named(exact[0]) &&
               forall j :: 0 <= j < |candidates| && j != i ==> !named(candidates[j]);
      assert OnlyNamed(candidates, symbol.providerSymbol, i);
    }
    forall m | OnlyNamed(candidates, symbol.providerSymbol, m) ensures exact == [candidates[m]] {
      FilterSingle(candidates, m, named);
    }
  }

  /** An answer is accepted exactly if it identifies the symbol. */
  lemma VerdictExactly(symbol: ProbeSymbol, call: Outcome<seq<RawSymbol>>)
    ensures Verdict(symbol, call).symbolId == symbol.symbolId
    ensures Verdict(symbol, call).accepted <==> Identified(symbol, call)
  {
    if call.value.Some? { AcceptedIsOnly(symbol, call.value.value); }
    hide Accepted, OnlyNamed;
  }

  // ------------------------------------------------------------------ the identity phase

  /** The attempt is live, on a trading day, early enough and connected. */
  predicate Starts(pf: Preflight, env: Environment, liveMode: bool, tradingDay: bool) {
    liveMode && tradingDay && env.now(1) < pf.expiry && env.now(2) <= pf.boundary - 60000 && env.connects
  }

  /** The look before the i-th search comes before the expiry, and the search identifies the symbol. */
  ghost predicate Verified(pf: Preflight, env: Environment, i: nat)
    requires i < |pf.symbols|
  {
    env.now(3 + i) < pf.expiry && Identified(pf.symbols[i], env.search(i))
  }

  lemma SearchedVerdicts(pf: Preflight, env: Environment, identity: seq<IdentityOutcome>, calls: seq<CallRecord>,
                         n: nat, stop: Option<Reason>, i: nat)
    requires |pf.symbols| == SYMBOLS && IdentityTrace(pf, env, identity, calls, n, stop) && i < n
    ensures identity[i].accepted <==> Identified(pf.symbols[i], env.search(i))
    ensures i < n - 1 || stop.None? ==> Identified(pf.symbols[i], env.search(i))
    ensures stop == Some(ExpiryDuringIdentity) ==> Identified(pf.symbols[i], env.search(i))
  {
    VerdictExactly(pf.symbols[i], env.search(i));
    hide Verdict, Rejection, IdentityRecord, Identified;
  }

  lemma EnteredWhenVerified(pf: Preflight, env: Environment, r: Attempt, asked: seq<Asked>, readings: nat, i: nat)
    requires |pf.symbols| == SYMBOLS && readings > 0 && Connected(pf, env, r, asked, readings)
    requires r.status != Blocked && i < SYMBOLS
    ensures Verified(pf, env, i)
  {
    hide Identified, Passed, Acceptance, ReadsOf, BarsOf, PlanTrace, PlanTimed, IdentityTrace;
    SearchedVerdicts(pf, env, r.identity, r.calls[..SYMBOLS], SYMBOLS, None, i);
    assert AskedAtOnce(pf, env, asked[..SYMBOLS], ADMISSION, i);
  }

  /** Why the identity phase ends at symbol `i`. */
  function IdentityStop(pf: Preflight, env: Environment, i: nat): Reason {
    if pf.expiry <= env.now(3 + i) then ExpiryDuringIdentity
    else if env.search(i).settlement == Completed && env.search(i).value.Some? then IdentityRejected(i)
    else IdentityRequestFailed
  }

  /** Blocked at `i`: everything before is verified, this one is not, and it is the last one looked at. */
  ghost predicate BlockedAt(pf: Preflight, env: Environment, r: Attempt, asked: seq<Asked>, i: nat)
    requires i < |pf.symbols|
  {
    && r.status == Blocked && r.reason == IdentityStop(pf, env, i)
    && (forall j :: 0 <= j < i ==> Verified(pf, env, j)) && !Verified(pf, env, i)
    && |r.calls| == i + 1 && |asked| == (if r.reason == ExpiryDuringIdentity then i else i + 1)
    && |r.identity| == |asked| && r.quoteReads == [] && r.bars == []
  }

  /** Until the identity phase stopped, each symbol was verified. */
  lemma VerifiedBefore(pf: Preflight, env: Environment, r: Attempt, asked: seq<Asked>, readings: nat, j: nat)
    requires |pf.symbols| == SYMBOLS && readings > 0 && BlockedByIdentity(pf, env, r, asked) && j < |asked|
    requires IdentityTimed(pf, env, asked, ADMISSION, Some(r.reason), readings - 1)
    requires j < |asked| - 1 || r.reason == ExpiryDuringIdentity
    ensures j < SYMBOLS && Verified(pf, env, j)
  {
    SearchedVerdicts(pf, env, r.identity, r.calls, |asked|, Some(r.reason), j);
    assert AskedAtOnce(pf, env, asked, ADMISSION, j);
    hide Identified, Verdict, Rejection, IdentityRecord;
  }

  lemma BlockedByExpiry(pf: Preflight, env: Environment, r: Attempt, asked: seq<Asked>, readings: nat)
    requires |pf.symbols| == SYMBOLS && readings > 0 && BlockedByIdentity(pf, env, r, asked)
    requires IdentityTimed(pf, env, asked, ADMISSION, Some(r.reason), readings - 1)
    requires r.reason == ExpiryDuringIdentity
    ensures |asked| < SYMBOLS && BlockedAt(pf, env, r, asked, |asked|)
  {
    forall j | 0 <= j < |asked| ensures j < SYMBOLS && Verified(pf, env, j) {
      VerifiedBefore(pf, env, r, asked, readings, j);
    }
    hide Identified, Verdict, Rejection, IdentityRecord;
  }

  lemma BlockedByAnswer(pf: Preflight, env: Environment, r: Attempt, asked: seq<Asked>, readings: nat)
    requires |pf.symbols| == SYMBOLS && readings > 0 && BlockedByIdentity(pf, env, r, asked)
    requires IdentityTimed(pf, env, asked, ADMISSION, Some(r.reason), readings - 1)
    requires r.reason != ExpiryDuringIdentity
    ensures 0 < |asked| <= SYMBOLS && BlockedAt(pf, env, r, asked, |asked| - 1)
  {
    forall j | 0 <= j < |asked| - 1 ensures j < SYMBOLS && Verified(pf, env, j) {
      VerifiedBefore(pf, env, r, asked, readings, j);
    }
    hide Identified, Verdict, IdentityRecord;
    var i := |asked| - 1;
    SearchedVerdicts(pf, env, r.identity, r.calls, |asked|, Some(r.reason), i);
    assert AskedAtOnce(pf, env, asked, ADMISSION, i);
  }

  /** Once connected, an attempt enters the plan exactly if every one of the five symbols is verified; else it is
      blocked at the first that is not, with the reason for it. */
  lemma IdentityDecides(pf: Preflight, env: Environment, liveMode: bool, tradingDay: bool, r: Attempt,
                        asked: seq<Asked>, readings: nat)
    requires |pf.symbols| == SYMBOLS && Protocol(pf, env, liveMode, tradingDay, r, asked, readings)
    requires Starts(pf, env, liveMode, tradingDay)
    ensures r.status != Blocked <==> forall i :: 0 <= i < 5 ==> Verified(pf, env, i)
    ensures r.status != Blocked <==> |r.calls| == 18
    ensures r.status == Blocked ==> exists i :: 0 <= i < 5 && BlockedAt(pf, env, r, asked, i)
  {
    assert Connected(pf, env, r, asked, readings);
    PlanNeedsIdentity(pf, env, r, asked, readings);
    hide Verified, BlockedByIdentity, IdentityTimed, Observed, Timed, Acceptance, Passed, BlockedAt;
    if r.status != Blocked {
      forall i | 0 <= i < 5 ensures Verified(pf, env, i) {
        EnteredWhenVerified(pf, env, r, asked, readings, i);
      }
    } else if r.reason == ExpiryDuringIdentity {
      BlockedByExpiry(pf, env, r, asked, readings);
      NotVerifiedThere(pf, env, r, asked, |asked|);
    } else {
      BlockedByAnswer(pf, env, r, asked, readings);
      NotVerifiedThere(pf, env, r, asked, |asked| - 1);
    }
  }

  lemma NotVerifiedThere(pf: Preflight, env: Environment, r: Attempt, asked: seq<Asked>, i: nat)
    requires i < |pf.symbols| && BlockedAt(pf, env, r, asked, i)
    ensures !Verified(pf, env, i)
  {
  }

  // ------------------------------------------------------------------ one answer in the plan

  predicate Answered<T>(call: Outcome<T>) { call.settlement == Completed && call.value.Some? }

  /** A request that was dispatched left within two seconds of its instant. */
  predicate Punctual<T>(pf: Preflight, offset: int, call: Outcome<T>) {
    call.dispatchedAt.Some? ==>
      pf.boundary + offset - 2000 <= call.dispatchedAt.value <= pf.boundary + offset + 2000
  }

  /** The first quote with that id. */
  predicate FirstQuoted(quotes: seq<RawQuote>, id: nat, m: int) {
    0 <= m < |quotes| && quotes[m].symbolId == id && forall j :: 0 <= j < m ==> quotes[j].symbolId != id
  }

  predicate KnownLive(d: Delay) {
    match d
    case Flag(delayed) => !delayed
    case Amount(seconds) => seconds == 0.0
    case Unknown => false
  }

  /** The first quote of each symbol that has one is known to be undelayed. */
  ghost predicate AllLive(pf: Preflight, quotes: seq<RawQuote>) {
    forall s, m :: 0 <= s < |pf.symbols| && FirstQuoted(quotes, pf.symbols[s].symbolId, m) ==>
      KnownLive(quotes[m].delay)
  }

  lemma {:induction false} FoundFirst(quotes: seq<RawQuote>, id: nat) returns (m: nat)
    ensures m <= |quotes| && forall j :: 0 <= j < m ==> quotes[j].symbolId != id
    ensures m < |quotes| ==> FirstQuoted(quotes, id, m)
    ensures FindQuote(quotes, id) == if m < |quotes| then Some(quotes[m]) else None
  {
    if quotes == [] || quotes[0].symbolId == id {
      m := 0;
    } else {
      var later := FoundFirst(quotes[1..], id);
      m := later + 1;
      forall j | 0 <= j < m ensures quotes[j].symbolId != id {
        assert j > 0 ==> quotes[j] == quotes[1..][j - 1];
      }
    }
  }

  /** A read shows each symbol as its first quote has it, and no symbol without one as returned. */
  lemma SymbolsSeen(pf: Preflight, quotes: seq<RawQuote>, s: nat)
    requires s < |pf.symbols|
    ensures |ObserveSymbols(pf, quotes)| == |pf.symbols|
    ensures var seen := ObserveSymbols(pf, quotes)[s];
            && seen.symbolId == pf.symbols[s].symbolId
            && (seen.returned <==> exists m :: FirstQuoted(quotes, pf.symbols[s].symbolId, m))
            && (forall m :: FirstQuoted(quotes, pf.symbols[s].symbolId, m) ==> seen.delay == Some(quotes[m].delay))
            && (!seen.returned ==> seen.delay == None)
  {
    var m := FoundFirst(quotes, pf.symbols[s].symbolId);
    hide FindQuote;
  }

  lemma NoDelayExactly(pf: Preflight, quotes: seq<RawQuote>)
    ensures AnyDelay(ObserveSymbols(pf, quotes)) <==> !AllLive(pf, quotes)
  {
    var seen := ObserveSymbols(pf, quotes);
    forall s | 0 <= s < |seen|
      ensures seen[s].returned && !KnownUndelayed(seen[s].delay) <==>
              exists m :: FirstQuoted(quotes, pf.symbols[s].symbolId, m) && !KnownLive(quotes[m].delay) {
      SymbolsSeen(pf, quotes, s);
    }
    hide FirstQuoted, KnownLive, ObserveSymbols, KnownUndelayed;
    if !AllLive(pf, quotes) {
      var s, m :| 0 <= s < |pf.symbols| && FirstQuoted(quotes, pf.symbols[s].symbolId, m) &&
                  !KnownLive(quotes[m].delay);
      SymbolsSeen(pf, quotes, s);
    }
  }

  /** What a settled call of the plan does to it: nothing, or one of the four stops. */
  function CallStop<T>(pf: Preflight, offset: int, call: Outcome<T>): Option<Reason> {
    if call.settlement == TimedOut then Some(ResponseTimeout)
    else if !Answered(call) then Some(FirstError(call.error))
    else if !Punctual(pf, offset, call) then Some(DispatchOffsetExceeded)
    else None
  }

  lemma FaultExactly<T>(pf: Preflight, request: Request, call: Outcome<T>)
    ensures CallFault(pf, request, call) == CallStop(pf, request.offset, call)
    ensures CallFault(pf, request, call).None? <==> Answered(call) && Punctual(pf, request.offset, call)
  {
  }

  /** The call of the k-th planned request went well. */
  ghost predicate WentOn(pf: Preflight, env: Environment, k: nat)
    requires k < |PLAN|
  {
    match PLAN[k].kind
    case Quote =>
      var call := env.quotes(5 + k);
      Answered(call) && Punctual(pf, PLAN[k].offset, call) && AllLive(pf, call.value.value)
    case _ => Answered(env.candles(5 + k)) && Punctual(pf, PLAN[k].offset, env.candles(5 + k))
  }

  /** The stop it causes if not: a delay stops a quote call that is otherwise in order. */
  ghost predicate StopsWith(pf: Preflight, env: Environment, k: nat, reason: Reason)
    requires k < |PLAN|
  {
    match PLAN[k].kind
    case Quote =>
      var fault := CallStop(pf, PLAN[k].offset, env.quotes(5 + k));
      if fault.Some? then reason == fault.value
      else reason == QuoteDelayOrUnknown && !AllLive(pf, env.quotes(5 + k).value.value)
    case _ => CallStop(pf, PLAN[k].offset, env.candles(5 + k)) == Some(reason)
  }

  lemma InterruptionExactly(pf: Preflight, env: Environment, k: nat)
    requires k < |PLAN|
    ensures Interruption(pf, env, k).None? <==> WentOn(pf, env, k)
    ensures Interruption(pf, env, k).Some? ==> StopsWith(pf, env, k, Interruption(pf, env, k).value)
  {
    FaultExactly(pf, PLAN[k], env.quotes(5 + k));
    FaultExactly(pf, PLAN[k], env.candles(5 + k));
    hide CallFault, CallStop, Punctual, AllLive, AnyDelay, ObserveSymbols;
    if env.quotes(5 + k).value.Some? { NoDelayExactly(pf, env.quotes(5 + k).value.value); }
  }

  /** An attempt in its plan goes on as long as its calls go well, and stops at the first that does not, for the reason
      it gives; only the expiry stops it otherwise. */
  lemma PlanStopsExactly(pf: Preflight, env: Environment, r: Attempt, asked: seq<Asked>, stop: Option<Reason>)
    requires |pf.symbols| == SYMBOLS && Observed(pf, env, r, asked, stop)
    ensures 5 <= |asked| <= 18
    ensures forall k :: 0 <= k < |asked| - 6 ==> WentOn(pf, env, k)
    ensures stop.None? ==> |asked| == 18 && WentOn(pf, env, 12)
    ensures stop == Some(ExpiryReached) ==> |asked| < 18 && (|asked| > 5 ==> WentOn(pf, env, |asked| - 6))
    ensures stop.Some? && stop != Some(ExpiryReached) ==> |asked| > 5 && StopsWith(pf, env, |asked| - 6, stop.value)
  {
    var a := |asked| - SYMBOLS;
    hide IdentityTrace, ReadsOf, BarsOf, WentOn, StopsWith, Interruption;
    forall k | 0 <= k < a
      ensures (Interruption(pf, env, k).None? <==> WentOn(pf, env, k)) &&
              (Interruption(pf, env, k).Some? ==> StopsWith(pf, env, k, Interruption(pf, env, k).value)) {
      InterruptionExactly(pf, env, k);
    }
  }

  // ------------------------------------------------------------------ what is observed

  predicate FirstOfTarget(pf: Preflight, candles: seq<RawCandle>, m: int) {
    && 0 <= m < |candles| && candles[m].start == pf.boundary - 300000 && candles[m].end == pf.boundary
    && forall j :: 0 <= j < m ==> candles[j].start != pf.boundary - 300000 || candles[j].end != pf.boundary
  }

  lemma {:induction false} TargetFirst(pf: Preflight, candles: seq<RawCandle>) returns (m: nat)
    ensures m <= |candles|
    ensures forall j :: 0 <= j < m ==> candles[j].start != pf.boundary - 300000 || candles[j].end != pf.boundary
    ensures m < |candles| ==> FirstOfTarget(pf, candles, m)
    ensures FindCandle(candles, pf.boundary - 300000, pf.boundary) ==
            if m < |candles| then Some(candles[m]) else None
  {
    if candles == [] || (candles[0].start == pf.boundary - 300000 && candles[0].end == pf.boundary) {
      m := 0;
    } else {
      var later := TargetFirst(pf, candles[1..]);
      m := later + 1;
      forall j | 0 <= j < m
        ensures candles[j].start != pf.boundary - 300000 || candles[j].end != pf.boundary {
        assert j > 0 ==> candles[j] == candles[1..][j - 1];
      }
    }
  }

  /** A bar is present exactly if a candle covers the five minutes up to the boundary, with the prices of the first. */
  lemma BarSeen(pf: Preflight, symbolId: nat, readIndex: nat, candles: seq<RawCandle>)
    ensures var bar := ObserveBar(pf, symbolId, readIndex, candles);
            && bar.symbolId == symbolId && bar.readIndex == readIndex
            && bar.targetStart == pf.boundary - 300000 && bar.targetEnd == pf.boundary
            && (bar.present <==> exists m :: FirstOfTarget(pf, candles, m))
            && (forall m :: FirstOfTarget(pf, candles, m) ==> bar.ohlcv == Some(candles[m].ohlcv))
            && (!bar.present ==> bar.ohlcv == None)
  {
    var m := TargetFirst(pf, candles);
    hide FindCandle;
  }

  /** Every quote call that settled well in time is read, also one that then stops the plan, and nothing else is. */
  lemma {:induction false} ReadsExactly(pf: Preflight, env: Environment, a: nat, read: QuoteRead)
    requires a <= |PLAN|
    ensures read in ReadsOf(pf, env, a) <==>
            exists k :: 0 <= k < a && PLAN[k].kind == Quote && Answered(env.quotes(5 + k)) &&
                        Punctual(pf, PLAN[k].offset, env.quotes(5 + k)) && read == ReadOf(pf, env, k)
    decreases a
  {
    if a > 0 {
      ReadsExactly(pf, env, a - 1, read);
      FaultExactly(pf, PLAN[a - 1], env.quotes(5 + a - 1));
      hide CallFault, Punctual, ReadOf;
    }
  }

  lemma {:induction false} BarsExactly(pf: Preflight, env: Environment, a: nat, bar: BarObservation)
    requires |pf.symbols| == SYMBOLS && a <= |PLAN|
    ensures bar in BarsOf(pf, env, a) <==>
            exists k :: 0 <= k < a && PLAN[k].kind == Candle && Answered(env.candles(5 + k)) &&
                        Punctual(pf, PLAN[k].offset, env.candles(5 + k)) && bar == BarOf(pf, env, k)
    decreases a
  {
    if a > 0 {
      BarsExactly(pf, env, a - 1, bar);
      FaultExactly(pf, PLAN[a - 1], env.candles(5 + a - 1));
      hide CallFault, Punctual, BarOf;
    }
  }
}
