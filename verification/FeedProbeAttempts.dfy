/** A whole feed-probe attempt: admission, identity, observation and acceptance
    (apps/api/src/discovery-feed-probe.ts:373-863). */
module FeedProbeAttempts {
  import opened Lists
  import opened FeedProbe

  // ------------------------------------------------------------------ acceptance

  datatype Checks = Checks(
    allCallsCompleted: bool, noWireErrors: bool, quotesKnownDelayAllReads: bool, barsPresentBothReads: bool,
    barsStableAcrossReads: bool, dispatchWithinTolerance: bool, completedBeforeExpiry: bool,
    requestCapRespected: bool, identityVerified: bool)

  predicate Passed(c: Checks) {
    c.allCallsCompleted && c.noWireErrors && c.quotesKnownDelayAllReads && c.barsPresentBothReads &&
    c.barsStableAcrossReads && c.dispatchWithinTolerance && c.completedBeforeExpiry && c.requestCapRespected &&
    c.identityVerified
  }

  /** A map built from the bars in order keeps the last of a key. */
  function BarByKey(bars: seq<BarObservation>, symbolId: nat, readIndex: nat): Option<BarObservation> {
    if bars == [] then None
    else
      var last := bars[|bars| - 1];
      if last.symbolId == symbolId && last.readIndex == readIndex then Some(last)
      else BarByKey(bars[..|bars| - 1], symbolId, readIndex)
  }

  predicate StableBar(bars: seq<BarObservation>, symbolId: nat) {
    var first, second := BarByKey(bars, symbolId, 1), BarByKey(bars, symbolId, 2);
    first.Some? && second.Some? && first.value.ohlcv.Some? && first.value.ohlcv == second.value.ohlcv
  }

  function Attempted(calls: seq<CallRecord>): seq<CallRecord> {
    Filter(calls, (c: CallRecord) => c.outcome != NotAttempted)
  }

  predicate BarsPresent(bars: seq<BarObservation>, identity: seq<IdentityOutcome>) {
    identity != [] && |bars| == |identity| * 2 && forall i :: 0 <= i < |bars| ==> bars[i].present
  }

  function EvaluateAcceptance(calls: seq<CallRecord>, wire: seq<int>, quoteReads: seq<QuoteRead>,
                              bars: seq<BarObservation>, identity: seq<IdentityOutcome>,
                              completedAt: int, expiry: int): Checks
  {
    var attempted := Attempted(calls);
    Checks(
      attempted != [] && forall c :: c in attempted ==> c.outcome == Settled(Completed),
      wire != [] && forall status :: status in wire ==> 200 <= status < 300,
      |quoteReads| == |QUOTE_OFFSETS| &&
      (forall r :: r in quoteReads ==>
         |r.symbols| == |identity| && forall s :: s in r.symbols ==> s.returned && KnownUndelayed(s.delay)),
      BarsPresent(bars, identity),
      BarsPresent(bars, identity) && forall s :: s in identity ==> StableBar(bars, s.symbolId),
      forall c :: c in attempted ==> c.offsetError.None? || c.offsetError.value <= 2000,
      completedAt <= expiry && forall c :: c in attempted ==> c.settledAt.None? || c.settledAt.value <= expiry,
      |attempted| <= 30,
      |identity| == 5 && forall s :: s in identity ==> s.accepted)
  }

  // ------------------------------------------------------------------ the attempt

  datatype Attempt = Attempt(
    status: Status, reason: Reason, identity: seq<IdentityOutcome>, calls: seq<CallRecord>, quoteReads: seq<QuoteRead>,
    bars: seq<BarObservation>, completedAt: int, acceptance: Option<Checks>)

  function Acceptance(env: Environment, pf: Preflight, r: Attempt, completedAt: int): Checks {
    EvaluateAcceptance(r.calls, env.wire, r.quoteReads, r.bars, r.identity, completedAt, pf.expiry)
  }

  predicate Refused(r: Attempt, asked: seq<Asked>, status: Status, reason: Reason) {
    asked == [] && r == Attempt(status, reason, [], [], [], [], r.completedAt, None)
  }

  /** The looks at the clock before the first identity call: at the start and for the two admission checks. */
  const ADMISSION: nat := 3

  /** When the calls of an attempt that entered the plan were sent, up to the look that ended it. */
  ghost predicate Timed(pf: Preflight, env: Environment, asked: seq<Asked>, stop: Option<Reason>, readings: nat) {
    && |asked| >= SYMBOLS
    && IdentityTimed(pf, env, asked[..SYMBOLS], ADMISSION, None, ADMISSION + SYMBOLS)
    && PlanTimed(pf, env, asked[SYMBOLS..], ADMISSION + SYMBOLS, stop, readings)
  }

  /** The identity phase stopped, and nothing was observed. */
  ghost predicate BlockedByIdentity(pf: Preflight, env: Environment, r: Attempt, asked: seq<Asked>)
    requires |pf.symbols| == SYMBOLS
  {
    && r.status == Blocked && r.quoteReads == [] && r.bars == [] && r.acceptance == None
    && IdentityTrace(pf, env, r.identity, r.calls, |asked|, Some(r.reason))
    && forall i :: 0 <= i < |asked| ==> asked[i].name == IdentityCheck(i)
  }

  /** All identities were accepted, and the plan ran to its end or to its stop. */
  ghost predicate Observed(pf: Preflight, env: Environment, r: Attempt, asked: seq<Asked>, stop: Option<Reason>)
    requires |pf.symbols| == SYMBOLS
  {
    && |r.calls| == SYMBOLS + |PLAN| && SYMBOLS <= |asked| <= SYMBOLS + |PLAN|
    && IdentityTrace(pf, env, r.identity, r.calls[..SYMBOLS], SYMBOLS, None)
    && PlanTrace(pf, env, r.calls[SYMBOLS..], |asked| - SYMBOLS, stop, |PLAN|)
    && r.quoteReads == ReadsOf(pf, env, |asked| - SYMBOLS) && r.bars == BarsOf(pf, env, |asked| - SYMBOLS)
    && (forall i :: 0 <= i < SYMBOLS ==> asked[i].name == IdentityCheck(i))
    && (forall j :: SYMBOLS <= j < |asked| ==> asked[j].name == PLAN[j - SYMBOLS].name)
  }

  ghost predicate Connected(pf: Preflight, env: Environment, r: Attempt, asked: seq<Asked>, readings: nat)
    requires |pf.symbols| == SYMBOLS && readings > 0
  {
    match r.status
    case Blocked =>
      && BlockedByIdentity(pf, env, r, asked)
      && IdentityTimed(pf, env, asked, ADMISSION, Some(r.reason), readings - 1)
    case Stopped =>
      && Observed(pf, env, r, asked, Some(r.reason)) && r.acceptance == None
      && Timed(pf, env, asked, Some(r.reason), readings - 1)
    case Skipped => false
    case _ =>
      && Observed(pf, env, r, asked, None) && readings >= 2 && Timed(pf, env, asked, None, readings - 2)
      && r.reason == RunCompleted(r.status.CompletedAccepted?)
      && (r.status.CompletedAccepted? <==> Passed(Acceptance(env, pf, r, env.now(readings - 2))))
      && r.acceptance == Some(Acceptance(env, pf, r, r.completedAt))
  }

  /** What an attempt may be, by what its environment did; `readings` counts the looks at the clock. */
  ghost predicate Protocol(pf: Preflight, env: Environment, liveMode: bool, tradingDay: bool, r: Attempt,
                           asked: seq<Asked>, readings: nat)
    requires |pf.symbols| == SYMBOLS
  {
    && readings > 0 && r.completedAt == env.now(readings - 1)
    && if !liveMode || !tradingDay then
         Refused(r, asked, Blocked, if liveMode then NotATradingDay else NotLiveMode) && readings == 2
       else if env.now(1) >= pf.expiry then Refused(r, asked, Skipped, WindowElapsed) && readings == 3
       else if env.now(2) > pf.boundary - 60000 then
         Refused(r, asked, Blocked, InsufficientPreflightLead) && readings == 4
       else if !env.connects then Refused(r, asked, Blocked, SessionUnavailable) && readings == 4
       else Connected(pf, env, r, asked, readings)
  }

  method RunFeedProbeAttempt(pf: Preflight, deps: Deps, liveMode: bool, tradingDay: bool, ghost horizon: nat)
    returns (r: Attempt)
    requires |pf.symbols| == SYMBOLS && deps.readings == 0 && deps.asked == []
    requires forall k :: k >= horizon ==> deps.env.now(k) >= pf.expiry
    modifies deps
    ensures Protocol(pf, deps.env, liveMode, tradingDay, r, deps.asked, deps.readings)
  {
    hide Observed, IdentityTrace, IdentityTimed, PlanTrace, PlanTimed, ReadsOf, BarsOf, Acceptance, Passed;
    var env := deps.env;
    var startedAt := deps.Now();
    if !liveMode || !tradingDay {
      r := TurnAway(deps, Blocked, if liveMode then NotATradingDay else NotLiveMode);
      return;
    }
    var now := deps.Now();
    if now >= pf.expiry {
      r := TurnAway(deps, Skipped, WindowElapsed);
      return;
    }
    now := deps.Now();
    if now > pf.boundary - 60000 {
      r := TurnAway(deps, Blocked, InsufficientPreflightLead);
      return;
    }
    if !env.connects {
      r := TurnAway(deps, Blocked, SessionUnavailable);
      return;
    }
    var identity, verified, rejected := VerifyIdentity(pf, deps);
    if rejected.Some? {
      var completedAt := deps.Now();
      return Attempt(Blocked, rejected.value, identity, verified, [], [], completedAt, None);
    }
    VerifiedCalls(pf, env, identity, verified);
    VerifiedLooks(pf, env, deps.asked, deps.readings);
    ghost var early := deps.asked;
    var calls, quoteReads, bars, stop := ObservePlan(pf, deps, verified, horizon);
    ObservedAll(pf, env, identity, verified, calls, quoteReads, bars, deps.asked, stop);
    assert Timed(pf, env, deps.asked, stop, deps.readings) by {
      assert deps.asked[..SYMBOLS] == early;
    }
    if stop.Some? {
      var completedAt := deps.Now();
      var status := if forall c :: c in calls ==> c.outcome == NotAttempted then Blocked else Stopped;
      SettledFirst(pf, env, identity, verified, calls);
      return Attempt(status, stop.value, identity, calls, quoteReads, bars, completedAt, None);
    }
    r := FinishTwice(pf, deps, identity, calls, quoteReads, bars);
  }

  /** An attempt that was not stopped is finished provisionally for its status, and once more with it. */
  method FinishTwice(pf: Preflight, deps: Deps, identity: seq<IdentityOutcome>, calls: seq<CallRecord>,
                     quoteReads: seq<QuoteRead>, bars: seq<BarObservation>) returns (r: Attempt)
    modifies deps`readings
    ensures deps.readings == old(deps.readings) + 2
    ensures r.identity == identity && r.calls == calls && r.quoteReads == quoteReads && r.bars == bars
    ensures r.completedAt == deps.env.now(deps.readings - 1)
    ensures r.status == (if Passed(Acceptance(deps.env, pf, r, deps.env.now(deps.readings - 2))) then CompletedAccepted
                         else CompletedNotAccepted)
    ensures r.reason == RunCompleted(r.status.CompletedAccepted?)
    ensures r.acceptance == Some(Acceptance(deps.env, pf, r, r.completedAt))
  {
    hide EvaluateAcceptance, Passed;
    var wire := deps.env.wire;
    var completedAt := deps.Now();
    var provisional := EvaluateAcceptance(calls, wire, quoteReads, bars, identity, completedAt, pf.expiry);
    var status := if Passed(provisional) then CompletedAccepted else CompletedNotAccepted;
    completedAt := deps.Now();
    var acceptance := EvaluateAcceptance(calls, wire, quoteReads, bars, identity, completedAt, pf.expiry);
    r := Attempt(status, RunCompleted(Passed(provisional)), identity, calls, quoteReads, bars, completedAt,
                 Some(acceptance));
  }

  /** Finishes an attempt before its first call. */
  method TurnAway(deps: Deps, status: Status, reason: Reason) returns (r: Attempt)
    modifies deps`readings
    ensures deps.readings == old(deps.readings) + 1
    ensures r == Attempt(status, reason, [], [], [], [], deps.env.now(old(deps.readings)), None)
  {
    var completedAt := deps.Now();
    return Attempt(status, reason, [], [], [], [], completedAt, None);
  }

  /** However the attempt is finished, the plan's records stand in it. */
  lemma ObservedAll(pf: Preflight, env: Environment, identity: seq<IdentityOutcome>, verified: seq<CallRecord>,
                    calls: seq<CallRecord>, quoteReads: seq<QuoteRead>, bars: seq<BarObservation>,
                    asked: seq<Asked>, stop: Option<Reason>)
    requires |pf.symbols| == SYMBOLS && IdentityTrace(pf, env, identity, verified, SYMBOLS, None)
    requires |calls| == SYMBOLS + |PLAN| && calls[..SYMBOLS] == verified
    requires SYMBOLS <= |asked| <= SYMBOLS + |PLAN|
    requires forall i :: 0 <= i < SYMBOLS ==> asked[i].name == IdentityCheck(i)
    requires forall j :: 0 <= j < |asked| - SYMBOLS ==> asked[SYMBOLS + j].name == PLAN[j].name
    requires PlanTrace(pf, env, calls[SYMBOLS..], |asked| - SYMBOLS, stop, |PLAN|)
    requires quoteReads == ReadsOf(pf, env, |asked| - SYMBOLS) && bars == BarsOf(pf, env, |asked| - SYMBOLS)
    ensures forall r: Attempt ::
      r.identity == identity && r.calls == calls && r.quoteReads == quoteReads && r.bars == bars ==>
        Observed(pf, env, r, asked, stop)
  {
    hide IdentityTrace, PlanTrace, ReadsOf, BarsOf;
  }

  lemma VerifiedCalls(pf: Preflight, env: Environment, identity: seq<IdentityOutcome>, calls: seq<CallRecord>)
    requires |pf.symbols| == SYMBOLS && IdentityTrace(pf, env, identity, calls, SYMBOLS, None)
    ensures |calls| == SYMBOLS && forall i :: 0 <= i < SYMBOLS ==> calls[i].kind.Identity? && calls[i].outcome.Settled?
  {
  }

  lemma VerifiedLooks(pf: Preflight, env: Environment, asked: seq<Asked>, readings: nat)
    requires |asked| == SYMBOLS && IdentityTimed(pf, env, asked, ADMISSION, None, readings)
    ensures readings == ADMISSION + SYMBOLS
  {
  }

  lemma SettledFirst(pf: Preflight, env: Environment, identity: seq<IdentityOutcome>, verified: seq<CallRecord>,
                     calls: seq<CallRecord>)
    requires |pf.symbols| == SYMBOLS && IdentityTrace(pf, env, identity, verified, SYMBOLS, None)
    requires |verified| <= |calls| && calls[..|verified|] == verified
    ensures calls[0] in calls && calls[0].outcome != NotAttempted
  {
    assert calls[0] == verified[0];
  }

  // ------------------------------------------------------------------ the theorems

  /** In every environment calls are numbered from one, each request is sent at most once and in order, and
      nothing is sent after the first call that stopped the attempt. */
  lemma OneCallPerRequest(pf: Preflight, env: Environment, liveMode: bool, tradingDay: bool, r: Attempt,
                          asked: seq<Asked>, readings: nat)
    requires |pf.symbols| == SYMBOLS && Protocol(pf, env, liveMode, tradingDay, r, asked, readings)
    ensures forall i :: 0 <= i < |r.calls| ==> r.calls[i].sequence == i + 1
    ensures |asked| <= |r.calls|
    ensures forall i :: 0 <= i < |asked| ==> r.calls[i].outcome.Settled? && r.calls[i].name == asked[i].name
    ensures forall i :: |asked| <= i < |r.calls| ==> !r.calls[i].outcome.Settled?
    ensures forall i, j :: 0 <= i < j < |asked| ==> asked[i].name != asked[j].name
    ensures forall i :: 0 <= i < |asked| - 1 ==> WentWell(pf, env, r, i)
  {
    hide Accepted, Interruption, Verdict, Rejection, Passed, EvaluateAcceptance, ReadsOf, BarsOf, ObserveSymbols;
    if r.calls != [] && r.status != Blocked {
      var stop := if r.status == Stopped then Some(r.reason) else None;
      assert Observed(pf, env, r, asked, stop);
      NumberedInOrder(pf, env, r, asked, stop);
      AllBeforeTheLastWentWell(pf, env, r, asked, stop);
      NamedApart(pf, env, r, asked, stop);
    }
  }

  /** The i-th call did not stop the attempt. */
  ghost predicate WentWell(pf: Preflight, env: Environment, r: Attempt, i: nat) {
    if i < SYMBOLS then i < |r.identity| && r.identity[i].accepted
    else i - SYMBOLS < |PLAN| && Interruption(pf, env, i - SYMBOLS).None?
  }

  lemma NumberedInOrder(pf: Preflight, env: Environment, r: Attempt, asked: seq<Asked>, stop: Option<Reason>)
    requires |pf.symbols| == SYMBOLS && Observed(pf, env, r, asked, stop)
    ensures forall i :: 0 <= i < |r.calls| ==>
      r.calls[i].sequence == i + 1 && (r.calls[i].outcome.Settled? <==> i < |asked|)
    ensures forall i :: 0 <= i < |asked| ==> r.calls[i].name == asked[i].name
  {
    hide PlanTrace, Verdict, ReadsOf, BarsOf;
    var planned := r.calls[SYMBOLS..];
    forall i | 0 <= i < |r.calls|
      ensures r.calls[i].sequence == i + 1 && (r.calls[i].outcome.Settled? <==> i < |asked|)
      ensures i < |asked| ==> r.calls[i].name == asked[i].name {
      if i < SYMBOLS {
        assert r.calls[i] == r.calls[..SYMBOLS][i];
      } else {
        assert r.calls[i] == planned[i - SYMBOLS];
        PlannedRecord(pf, env, planned, |asked| - SYMBOLS, stop, i - SYMBOLS);
      }
    }
  }

  lemma AllBeforeTheLastWentWell(pf: Preflight, env: Environment, r: Attempt, asked: seq<Asked>, stop: Option<Reason>)
    requires |pf.symbols| == SYMBOLS && Observed(pf, env, r, asked, stop)
    ensures forall i :: 0 <= i < |asked| - 1 ==> WentWell(pf, env, r, i)
  {
    hide Interruption, Verdict, ReadsOf, BarsOf, SentUpTo, NoneSentFrom;
  }

  lemma PlannedRecord(pf: Preflight, env: Environment, planned: seq<CallRecord>, a: nat, stop: Option<Reason>, j: nat)
    requires PlanTrace(pf, env, planned, a, stop, |PLAN|) && j < |PLAN|
    ensures planned[j].sequence == SYMBOLS + j + 1 && planned[j].name == PLAN[j].name && planned[j].kind == PLAN[j].kind
    ensures planned[j].outcome.Settled? <==> j < a
  {
    hide Interruption, Clear, OffsetError;
  }

  lemma NamedApart(pf: Preflight, env: Environment, r: Attempt, asked: seq<Asked>, stop: Option<Reason>)
    requires |pf.symbols| == SYMBOLS && Observed(pf, env, r, asked, stop)
    ensures forall i, j :: 0 <= i < j < |asked| ==> asked[i].name != asked[j].name
  {
    hide IdentityTrace, PlanTrace, ReadsOf, BarsOf;
    PlanNamesApart();
  }

  lemma PlanNamesApart()
    ensures forall i, j :: 0 <= i < j < |PLAN| ==> PLAN[i].name != PLAN[j].name
    ensures forall i :: 0 <= i < |PLAN| ==> !PLAN[i].name.IdentityCheck? && !PLAN[i].kind.Identity?
  {
  }

  /** Once connected, the plan is entered exactly when all five symbols were accepted. If not, the attempt is
      blocked with at most five identity calls; if so, it has a record for every request in plan order and
      ends stopped or completed, never blocked. */
  lemma PlanNeedsIdentity(pf: Preflight, env: Environment, r: Attempt, asked: seq<Asked>, readings: nat)
    requires |pf.symbols| == SYMBOLS && readings > 0 && Connected(pf, env, r, asked, readings)
    ensures r.status != Blocked <==> |r.identity| == SYMBOLS && forall i :: 0 <= i < SYMBOLS ==> r.identity[i].accepted
    ensures r.status == Blocked ==>
      |r.calls| <= SYMBOLS && r.quoteReads == [] && r.bars == [] && forall c :: c in r.calls ==> c.kind == Identity
    ensures r.status != Blocked ==>
      && |r.calls| == SYMBOLS + |PLAN|
      && (forall i :: 0 <= i < SYMBOLS ==> r.calls[i].name == IdentityCheck(i))
      && (forall j :: 0 <= j < |PLAN| ==> r.calls[SYMBOLS + j].name == PLAN[j].name)
      && r.status in {Stopped, CompletedAccepted, CompletedNotAccepted}
  {
    hide Accepted, Interruption, Verdict, Rejection, Passed, EvaluateAcceptance, ReadsOf, BarsOf, Clear, OffsetError;
    if r.status != Blocked {
      var stop := if r.status == Stopped then Some(r.reason) else None;
      var planned := r.calls[SYMBOLS..];
      forall j | 0 <= j < |PLAN| ensures r.calls[SYMBOLS + j].name == PLAN[j].name {
        assert r.calls[SYMBOLS + j] == planned[j];
        PlannedRecord(pf, env, planned, |asked| - SYMBOLS, stop, j);
      }
      forall i | 0 <= i < SYMBOLS ensures r.calls[i].name == IdentityCheck(i) {
        assert r.calls[i] == r.calls[..SYMBOLS][i];
      }
    }
  }

  // Which reads and bars a plan that ran through brings.

  /** Where in the plan the i-th quote read and the i-th bar are asked for. */
  function QuotePlace(i: nat): nat
    requires i < 3
  {
    if i == 0 then 0 else i + 5
  }

  function BarPlace(i: nat): nat
    requires i < 10
  {
    if i < 5 then i + 1 else i + 3
  }

  lemma {:induction false} ReadsInOrder(pf: Preflight, env: Environment, k: nat)
    requires k <= |PLAN| && Clear(pf, env, k)
    ensures |ReadsOf(pf, env, k)| == if k == 0 then 0 else if k <= 6 then 1 else if k == 7 then 2 else 3
    ensures forall i :: 0 <= i < |ReadsOf(pf, env, k)| ==>
      var p := QuotePlace(i);
      && p < k && env.quotes(SYMBOLS + p).value.Some? && ReadsOf(pf, env, k)[i] == ReadOf(pf, env, p)
      && !AnyDelay(ObserveSymbols(pf, env.quotes(SYMBOLS + p).value.value))
  {
    hide AnyDelay, ObserveSymbols, OffsetError, ReadOf;
    if k > 0 {
      ReadsInOrder(pf, env, k - 1);
      assert Interruption(pf, env, k - 1).None?;
    }
  }

  lemma {:induction false} BarsInOrder(pf: Preflight, env: Environment, k: nat)
    requires |pf.symbols| == SYMBOLS && k <= |PLAN| && Clear(pf, env, k)
    ensures |BarsOf(pf, env, k)| == if k == 0 then 0 else if k <= 6 then k - 1 else if k <= 8 then 5 else k - 3
    ensures forall i :: 0 <= i < |BarsOf(pf, env, k)| ==>
      var p := BarPlace(i);
      p < k && env.candles(SYMBOLS + p).value.Some? && BarsOf(pf, env, k)[i] == BarOf(pf, env, p)
  {
    hide AnyDelay, ObserveSymbols, OffsetError, BarOf;
    if k > 0 {
      BarsInOrder(pf, env, k - 1);
      assert Interruption(pf, env, k - 1).None?;
    }
  }

  /** An attempt nothing stopped has eighteen completed calls, each dispatched in time, three numbered quote
      reads without a delay among them, and one bar for every symbol and read. */
  lemma UnstoppedAttemptIsComplete(pf: Preflight, env: Environment, r: Attempt, asked: seq<Asked>)
    requires |pf.symbols| == SYMBOLS && Observed(pf, env, r, asked, None)
    ensures |r.calls| == |asked| == 18 && forall c :: c in r.calls ==> c.outcome == Settled(Completed)
    ensures forall c :: c in r.calls ==> c.offsetError.None? || c.offsetError.value <= TOLERANCE
    ensures |r.quoteReads| == 3 && forall i :: 0 <= i < 3 ==>
      r.quoteReads[i].readIndex == i + 1 && |r.quoteReads[i].symbols| == SYMBOLS && !AnyDelay(r.quoteReads[i].symbols)
    ensures |r.bars| == 10 && forall i :: 0 <= i < 10 ==>
      r.bars[i].symbolId == pf.symbols[i % 5].symbolId && r.bars[i].readIndex == 1 + i / 5
  {
    hide Observed, IdentityTrace, PlanTrace, Clear, Interruption, SettledRecord, ReadsOf, BarsOf, AnyDelay;
    RanThrough(pf, env, r, asked);
    ReadsAndBars(pf, env);
    forall i | 0 <= i < |r.calls|
      ensures r.calls[i].outcome == Settled(Completed)
      ensures r.calls[i].offsetError.None? || r.calls[i].offsetError.value <= TOLERANCE {
      if i < SYMBOLS {
        assert r.calls[i] == r.calls[..SYMBOLS][i];
        AcceptedCompleted(pf, env, r.identity, r.calls[..SYMBOLS], i);
      } else {
        assert r.calls[i] == r.calls[SYMBOLS..][i - SYMBOLS];
        ClearCompleted(pf, env, i - SYMBOLS);
      }
    }
  }

  lemma RanThrough(pf: Preflight, env: Environment, r: Attempt, asked: seq<Asked>)
    requires |pf.symbols| == SYMBOLS && Observed(pf, env, r, asked, None)
    ensures |r.calls| == |asked| == 18 && |PLAN| == 13 && Clear(pf, env, |PLAN|)
    ensures r.quoteReads == ReadsOf(pf, env, |PLAN|) && r.bars == BarsOf(pf, env, |PLAN|)
    ensures IdentityTrace(pf, env, r.identity, r.calls[..SYMBOLS], SYMBOLS, None)
    ensures forall j :: 0 <= j < |PLAN| ==>
      r.calls[SYMBOLS..][j] == SettledRecord(pf, env, j) && Interruption(pf, env, j).None?
  {
    hide Interruption, SettledRecord, IdentityTrace, ReadsOf, BarsOf;
  }

  lemma ReadsAndBars(pf: Preflight, env: Environment)
    requires |pf.symbols| == SYMBOLS && Clear(pf, env, |PLAN|)
    ensures |ReadsOf(pf, env, |PLAN|)| == 3 && forall i :: 0 <= i < 3 ==>
      var read := ReadsOf(pf, env, |PLAN|)[i];
      read.readIndex == i + 1 && |read.symbols| == SYMBOLS && !AnyDelay(read.symbols)
    ensures |BarsOf(pf, env, |PLAN|)| == 10 && forall i :: 0 <= i < 10 ==>
      var bar := BarsOf(pf, env, |PLAN|)[i];
      bar.symbolId == pf.symbols[i % 5].symbolId && bar.readIndex == 1 + i / 5
  {
    hide AnyDelay, Interruption, ReadsOf, BarsOf, Clear;
    ReadsInOrder(pf, env, |PLAN|);
    BarsInOrder(pf, env, |PLAN|);
  }

  lemma AcceptedCompleted(
      pf: Preflight, env: Environment, identity: seq<IdentityOutcome>, calls: seq<CallRecord>, i: nat)
    requires |pf.symbols| == SYMBOLS && IdentityTrace(pf, env, identity, calls, SYMBOLS, None) && i < SYMBOLS
    ensures calls[i].outcome == Settled(Completed) && calls[i].offsetError.None? && identity[i].accepted
    ensures identity[i].symbolId == pf.symbols[i].symbolId
  {
    hide Accepted;
    assert identity[i] == Verdict(pf.symbols[i], env.search(i));
  }

  lemma ClearCompleted(pf: Preflight, env: Environment, j: nat)
    requires j < |PLAN| && Interruption(pf, env, j).None?
    ensures var c := SettledRecord(pf, env, j);
            c.outcome == Settled(Completed) && (c.offsetError.None? || c.offsetError.value <= TOLERANCE)
  {
    hide AnyDelay, ObserveSymbols;
  }

  /** So four of the nine checks hold of themselves. */
  lemma UnstoppedAttemptMeetsFourChecks(
      pf: Preflight, env: Environment, r: Attempt, asked: seq<Asked>, completedAt: int)
    requires |pf.symbols| == SYMBOLS && Observed(pf, env, r, asked, None)
    ensures var checks := Acceptance(env, pf, r, completedAt);
            && checks.allCallsCompleted && checks.dispatchWithinTolerance
            && checks.requestCapRespected && checks.identityVerified
  {
    hide Observed, StableBar, BarsPresent;
    UnstoppedAttemptIsComplete(pf, env, r, asked);
    EverythingAttempted(r.calls);
    assert r.calls[0] in r.calls;
    assert |r.identity| == SYMBOLS && forall s :: s in r.identity ==> s.accepted by { AllAccepted(pf, env, r, asked); }
  }

  lemma EverythingAttempted(calls: seq<CallRecord>)
    requires forall c :: c in calls ==> c.outcome != NotAttempted
    ensures Attempted(calls) == calls
  {
    FilterAll(calls, (c: CallRecord) => c.outcome != NotAttempted);
  }

  lemma AllAccepted(pf: Preflight, env: Environment, r: Attempt, asked: seq<Asked>)
    requires |pf.symbols| == SYMBOLS && Observed(pf, env, r, asked, None)
    ensures |r.identity| == SYMBOLS && forall s :: s in r.identity ==> s.accepted
    ensures forall i :: 0 <= i < SYMBOLS ==> r.identity[i].symbolId == pf.symbols[i].symbolId
  {
    hide Accepted, PlanTrace, Verdict;
    forall i | 0 <= i < SYMBOLS ensures r.identity[i].accepted && r.identity[i].symbolId == pf.symbols[i].symbolId {
      AcceptedCompleted(pf, env, r.identity, r.calls[..SYMBOLS], i);
    }
  }

  predicate AllReturned(quoteReads: seq<QuoteRead>) {
    forall r :: r in quoteReads ==> forall s :: s in r.symbols ==> s.returned
  }

  predicate SettledBy(calls: seq<CallRecord>, expiry: int) {
    forall c :: c in calls ==> c.settledAt.None? || c.settledAt.value <= expiry
  }

  predicate WireClean(wire: seq<int>) { wire != [] && forall status :: status in wire ==> 200 <= status < 300 }

  /** No later symbol has the id of the s-th: where the preflight repeats an id, the last bar under it counts. */
  predicate LastOfId(pf: Preflight, s: nat) {
    s < |pf.symbols| && forall t :: s < t < |pf.symbols| ==> pf.symbols[t].symbolId != pf.symbols[s].symbolId
  }

  /** What an unstopped attempt is accepted for: a clean wire, every symbol in every quote read, every bar there
      and for each id the same in both reads, and all of it before the expiry. */
  lemma AcceptedExactlyWhen(pf: Preflight, env: Environment, r: Attempt, asked: seq<Asked>, completedAt: int)
    requires |pf.symbols| == SYMBOLS && Observed(pf, env, r, asked, None)
    ensures Passed(Acceptance(env, pf, r, completedAt)) <==>
      && WireClean(env.wire) && AllReturned(r.quoteReads)
      && AllPresent(r.bars) && (forall s :: 0 <= s < SYMBOLS && LastOfId(pf, s) ==> SameInBothReads(r.bars, s))
      && completedAt <= pf.expiry && SettledBy(r.calls, pf.expiry)
  {
    hide Observed, StableBar, BarsPresent, AllReturned, SameInBothReads, LastOfId, AllPresent;
    UnstoppedAttemptIsComplete(pf, env, r, asked);
    UnstoppedAttemptMeetsFourChecks(pf, env, r, asked, completedAt);
    EverythingAttempted(r.calls);
    QuotesPassExactlyWhen(pf, env, r, asked, completedAt);
    BarsPassExactlyWhen(pf, env, r, asked, completedAt);
  }

  lemma QuotesPassExactlyWhen(pf: Preflight, env: Environment, r: Attempt, asked: seq<Asked>, completedAt: int)
    requires |pf.symbols| == SYMBOLS && Observed(pf, env, r, asked, None)
    ensures Acceptance(env, pf, r, completedAt).quotesKnownDelayAllReads <==> AllReturned(r.quoteReads)
  {
    hide Observed, StableBar, BarsPresent, Attempted, KnownUndelayed;
    UnstoppedAttemptIsComplete(pf, env, r, asked);
    AllAccepted(pf, env, r, asked);
    forall read, s | read in r.quoteReads && s in read.symbols
      ensures |read.symbols| == |r.identity| && (s.returned ==> KnownUndelayed(s.delay)) {
      var i :| 0 <= i < 3 && r.quoteReads[i] == read;
      assert !AnyDelay(r.quoteReads[i].symbols);
    }
    forall read | read in r.quoteReads ensures |read.symbols| == |r.identity| {
      var i :| 0 <= i < 3 && r.quoteReads[i] == read;
    }
  }

  predicate AllPresent(bars: seq<BarObservation>) { forall i :: 0 <= i < |bars| ==> bars[i].present }

  /** The s-th symbol's bars of the two reads have the same prices. */
  predicate SameInBothReads(bars: seq<BarObservation>, s: nat) {
    |bars| == 10 && s < 5 && bars[s].ohlcv == bars[5 + s].ohlcv
  }

  lemma BarsPassExactlyWhen(pf: Preflight, env: Environment, r: Attempt, asked: seq<Asked>, completedAt: int)
    requires |pf.symbols| == SYMBOLS && Observed(pf, env, r, asked, None)
    ensures var checks := Acceptance(env, pf, r, completedAt);
            (checks.barsPresentBothReads && checks.barsStableAcrossReads) <==>
            AllPresent(r.bars) && forall s :: 0 <= s < SYMBOLS && LastOfId(pf, s) ==> SameInBothReads(r.bars, s)
  {
    hide Observed, Attempted, KnownUndelayed, StableBar, SameInBothReads, LastOfId;
    UnstoppedAttemptIsComplete(pf, env, r, asked);
    AllAccepted(pf, env, r, asked);
    BarsCarryPrices(pf, env, r, asked);
    if AllPresent(r.bars) {
      forall s | 0 <= s < SYMBOLS && LastOfId(pf, s)
        ensures StableBar(r.bars, pf.symbols[s].symbolId) <==> SameInBothReads(r.bars, s) {
        StableAtTheLast(pf, r.bars, s);
      }
      EachIdOnce(pf, r.bars, r.identity);
    }
  }

  predicate LastWithIdOf(pf: Preflight, s: nat, t: nat) {
    s < |pf.symbols| && LastOfId(pf, t) && pf.symbols[t].symbolId == pf.symbols[s].symbolId
  }

  lemma EachIdOnce(pf: Preflight, bars: seq<BarObservation>, identity: seq<IdentityOutcome>)
    requires |pf.symbols| == |identity| == SYMBOLS
    requires forall s :: 0 <= s < SYMBOLS ==> identity[s].symbolId == pf.symbols[s].symbolId
    requires forall s :: 0 <= s < SYMBOLS && LastOfId(pf, s) ==>
      (StableBar(bars, pf.symbols[s].symbolId) <==> SameInBothReads(bars, s))
    ensures (forall s :: s in identity ==> StableBar(bars, s.symbolId)) <==>
            forall s :: 0 <= s < SYMBOLS && LastOfId(pf, s) ==> SameInBothReads(bars, s)
  {
    hide StableBar, SameInBothReads, LastOfId;
    if forall s :: s in identity ==> StableBar(bars, s.symbolId) {
      forall s | 0 <= s < SYMBOLS && LastOfId(pf, s) ensures SameInBothReads(bars, s) {
        assert identity[s] in identity;
      }
    }
    if forall s :: 0 <= s < SYMBOLS && LastOfId(pf, s) ==> SameInBothReads(bars, s) {
      forall symbol | symbol in identity ensures StableBar(bars, symbol.symbolId) {
        var s :| 0 <= s < SYMBOLS && identity[s] == symbol;
        HasLast(pf, s);
        var t :| LastWithIdOf(pf, s, t);
        LastIsSymbol(pf, t);
      }
    }
  }

  lemma LastIsSymbol(pf: Preflight, t: nat)
    requires LastOfId(pf, t)
    ensures t < |pf.symbols|
  {
  }

  lemma {:induction false} HasLast(pf: Preflight, s: nat)
    requires |pf.symbols| == SYMBOLS && s < SYMBOLS
    ensures exists t :: LastWithIdOf(pf, s, t)
    decreases SYMBOLS - s
  {
    if LastOfId(pf, s) {
      assert LastWithIdOf(pf, s, s);
    } else {
      var t :| s < t < SYMBOLS && pf.symbols[t].symbolId == pf.symbols[s].symbolId;
      HasLast(pf, t);
      var last :| LastWithIdOf(pf, t, last);
      assert LastWithIdOf(pf, s, last);
    }
  }

  lemma StableAtTheLast(pf: Preflight, bars: seq<BarObservation>, s: nat)
    requires |pf.symbols| == SYMBOLS && LastOfId(pf, s) && |bars| == 10
    requires forall i :: 0 <= i < 10 ==>
      bars[i].symbolId == pf.symbols[i % 5].symbolId && bars[i].readIndex == 1 + i / 5 && bars[i].ohlcv.Some?
    ensures StableBar(bars, pf.symbols[s].symbolId) <==> SameInBothReads(bars, s)
  {
    LastBarOfKey(bars, s);
    LastBarOfKey(bars, 5 + s);
  }

  lemma BarsCarryPrices(pf: Preflight, env: Environment, r: Attempt, asked: seq<Asked>)
    requires |pf.symbols| == SYMBOLS && Observed(pf, env, r, asked, None)
    ensures forall i :: 0 <= i < |r.bars| ==> (r.bars[i].present <==> r.bars[i].ohlcv.Some?)
  {
    hide IdentityTrace, ReadsOf, BarsOf, Interruption;
    BarsInOrder(pf, env, |PLAN|);
  }

  lemma {:induction false} LastBarOfKey(bars: seq<BarObservation>, i: nat)
    requires i < |bars|
    requires forall j :: i < j < |bars| ==>
      bars[j].symbolId != bars[i].symbolId || bars[j].readIndex != bars[i].readIndex
    ensures BarByKey(bars, bars[i].symbolId, bars[i].readIndex) == Some(bars[i])
  {
    if i < |bars| - 1 {
      LastBarOfKey(bars[..|bars| - 1], i);
    }
  }

  /** The status goes by the clock's last reading but one, the acceptance written with it by the last: they
      disagree exactly when the expiry falls between the two and nothing else is amiss. */
  lemma StatusAgreesUnlessExpiryFallsBetween(
      pf: Preflight, env: Environment, r: Attempt, asked: seq<Asked>, readings: nat)
    requires |pf.symbols| == SYMBOLS && readings > 0 && Connected(pf, env, r, asked, readings)
    requires r.status.CompletedAccepted? || r.status.CompletedNotAccepted?
    requires r.completedAt == env.now(readings - 1)
    ensures (r.status.CompletedAccepted? <==> Passed(r.acceptance.value)) <==>
      (Passed(Acceptance(env, pf, r, pf.expiry)) ==>
         (env.now(readings - 2) <= pf.expiry <==> env.now(readings - 1) <= pf.expiry))
  {
    hide Observed, StableBar, BarsPresent, Attempted;
    assert Observed(pf, env, r, asked, None);
  }
}
