/** When a feed-probe attempt sends its requests (apps/api/src/discovery-feed-probe.ts:286-297, 538-700), and that
    clock and answers determine the whole attempt. */
module FeedProbeTiming {
  import opened Lists
  import opened FeedProbe
  import opened FeedProbeAttempts

  ghost predicate NeverBack(env: Environment) { forall j, k :: 0 <= j <= k ==> env.now(j) <= env.now(k) }

  // ------------------------------------------------------------------ nothing early, nothing after the expiry

  lemma IdentityCallTimed(pf: Preflight, env: Environment, r: Attempt, asked: seq<Asked>, readings: nat, i: nat)
    requires |pf.symbols| == SYMBOLS && readings > 0 && Connected(pf, env, r, asked, readings)
    requires i < |asked| && i < SYMBOLS
    ensures asked[i].looks == ADMISSION + i + 1 && env.now(asked[i].looks - 1) < pf.expiry
  {
    hide BlockedByIdentity, Observed, Acceptance, Passed, PlanTimed;
    if r.status == Blocked {
      assert AskedAtOnce(pf, env, asked, ADMISSION, i);
    } else {
      assert AskedAtOnce(pf, env, asked[..SYMBOLS], ADMISSION, i);
    }
  }

  /** The look that ends an attempt's plan, if it was stopped, and its stop. */
  function PlanStop(r: Attempt): Option<Reason> { if r.status == Stopped then Some(r.reason) else None }

  function PlanEnd(r: Attempt, readings: nat): int { if r.status == Stopped then readings - 1 else readings - 2 }

  lemma PlannedCallTimed(pf: Preflight, env: Environment, r: Attempt, asked: seq<Asked>, readings: nat, i: nat)
    requires |pf.symbols| == SYMBOLS && readings > 0 && Connected(pf, env, r, asked, readings)
    requires SYMBOLS <= i < |asked|
    ensures i - SYMBOLS < |PLAN| && LookedFor(pf, env, i - SYMBOLS, asked[i - 1].looks, asked[i].looks)
    ensures env.now(asked[i].looks - 1) < pf.expiry
  {
    hide Observed, IdentityTrace, Acceptance, Passed, LookedFor;
    if r.status == Blocked {
      AtMostFive(pf, env, r, asked);
    } else {
      var sent := asked[SYMBOLS..];
      assert Timed(pf, env, asked, PlanStop(r), PlanEnd(r, readings));
      assert SentInTurn(pf, env, sent, ADMISSION + SYMBOLS, i - SYMBOLS);
      assert sent[i - SYMBOLS] == asked[i];
      if i > SYMBOLS {
        assert sent[i - SYMBOLS - 1] == asked[i - 1];
      } else {
        IdentityCallTimed(pf, env, r, asked, readings, i - 1);
      }
    }
  }

  lemma AtMostFive(pf: Preflight, env: Environment, r: Attempt, asked: seq<Asked>)
    requires |pf.symbols| == SYMBOLS && BlockedByIdentity(pf, env, r, asked)
    ensures |asked| <= SYMBOLS
  {
    hide Verdict, Rejection;
  }

  /** Every request is sent right after a look before the expiry. A planned one was waited for since the request
      before it: the wait went on while the looks were below its instant, and ended with one that was not, or that
      reached the expiry. So under a clock that never goes back it is not sent before its instant, and nothing is
      sent after any look that had seen the expiry. */
  lemma SentInTime(pf: Preflight, env: Environment, liveMode: bool, tradingDay: bool, r: Attempt,
                   asked: seq<Asked>, readings: nat, i: nat)
    requires |pf.symbols| == SYMBOLS && Protocol(pf, env, liveMode, tradingDay, r, asked, readings)
    requires i < |asked|
    ensures 0 < asked[i].looks && env.now(asked[i].looks - 1) < pf.expiry
    ensures i >= SYMBOLS ==> i - SYMBOLS < |PLAN|
    ensures i >= SYMBOLS ==>
      var due, since, check := pf.boundary + PLAN[i - SYMBOLS].offset, asked[i - 1].looks, asked[i].looks - 1;
      && since < check
      && (env.now(check - 1) >= due || env.now(check - 1) >= pf.expiry)
      && (forall k :: since <= k < check - 1 ==> env.now(k) < due)
      && (NeverBack(env) ==> due <= env.now(check))
    ensures NeverBack(env) ==> forall k :: 0 <= k < asked[i].looks ==> env.now(k) < pf.expiry
  {
    hide Connected, LookedFor;
    if i < SYMBOLS {
      IdentityCallTimed(pf, env, r, asked, readings, i);
    } else {
      PlannedCallTimed(pf, env, r, asked, readings, i);
      WaitedFirst(pf, env, i - SYMBOLS, asked[i - 1].looks, asked[i].looks);
    }
  }

  lemma WaitedFirst(pf: Preflight, env: Environment, j: nat, from: nat, to: nat)
    requires j < |PLAN| && LookedFor(pf, env, j, from, to) && env.now(to - 1) < pf.expiry
    ensures var due := pf.boundary + PLAN[j].offset;
            && from < to - 1
            && (env.now(to - 2) >= due || env.now(to - 2) >= pf.expiry)
            && (forall k :: from <= k < to - 2 ==> env.now(k) < due)
            && (NeverBack(env) ==> due <= env.now(to - 1))
  {
  }

  /** A request is recorded as expired exactly if the attempt ended for the expiry, and then the last look of its
      phase was not before it. */
  lemma ExpiredWhenSeen(pf: Preflight, env: Environment, liveMode: bool, tradingDay: bool, r: Attempt,
                        asked: seq<Asked>, readings: nat)
    requires |pf.symbols| == SYMBOLS && Protocol(pf, env, liveMode, tradingDay, r, asked, readings)
    ensures (exists i :: 0 <= i < |r.calls| && r.calls[i].outcome == Expired) <==>
            r.reason.ExpiryDuringIdentity? || r.reason.ExpiryReached?
    ensures r.reason.ExpiryDuringIdentity? || r.reason.ExpiryReached? ==>
      readings >= 2 && env.now(readings - 2) >= pf.expiry
  {
    hide IdentityTrace, Observed, Acceptance, Passed, Waited, SentInTurn;
    if !liveMode || !tradingDay || env.now(1) >= pf.expiry || env.now(2) > pf.boundary - 60000 || !env.connects {
    } else if r.status == Blocked {
      ExpiredInIdentity(pf, env, r.identity, r.calls, |asked|, r.reason);
    } else {
      ExpiredInPlan(pf, env, r, asked, PlanStop(r));
    }
  }

  lemma ExpiredInIdentity(pf: Preflight, env: Environment, identity: seq<IdentityOutcome>, calls: seq<CallRecord>,
                          n: nat, reason: Reason)
    requires |pf.symbols| == SYMBOLS && IdentityTrace(pf, env, identity, calls, n, Some(reason))
    ensures (exists i :: 0 <= i < |calls| && calls[i].outcome == Expired) <==> reason == ExpiryDuringIdentity
    ensures calls != [] && reason != ExpiryReached
  {
    hide Verdict;
    if reason == ExpiryDuringIdentity {
      assert calls[n].outcome == Expired;
    }
  }

  lemma ExpiredInPlan(pf: Preflight, env: Environment, r: Attempt, asked: seq<Asked>, stop: Option<Reason>)
    requires |pf.symbols| == SYMBOLS && Observed(pf, env, r, asked, stop)
    ensures (exists i :: 0 <= i < |r.calls| && r.calls[i].outcome == Expired) <==> stop == Some(ExpiryReached)
    ensures stop != Some(ExpiryDuringIdentity)
  {
    hide Interruption, Verdict, Rejection, ReadsOf, BarsOf, Clear;
    var a := |asked| - SYMBOLS;
    forall i | 0 <= i < |r.calls|
      ensures r.calls[i].outcome == Expired <==> stop == Some(ExpiryReached) && i == |asked| {
      if i < SYMBOLS {
        assert r.calls[i] == r.calls[..SYMBOLS][i];
      } else {
        assert r.calls[i] == r.calls[SYMBOLS..][i - SYMBOLS];
      }
    }
  }

  // ------------------------------------------------------------------ one attempt for every environment

  /** What the identity phase came to, and when. */
  datatype Checking = Checking(
    identity: seq<IdentityOutcome>, calls: seq<CallRecord>, asked: seq<Asked>, stop: Option<Reason>, readings: nat)

  ghost predicate Checked(pf: Preflight, env: Environment, v: Checking)
    requires |pf.symbols| == SYMBOLS
  {
    && IdentityTrace(pf, env, v.identity, v.calls, |v.asked|, v.stop)
    && IdentityTimed(pf, env, v.asked, ADMISSION, v.stop, v.readings)
    && (forall i :: 0 <= i < |v.asked| ==> v.asked[i].name == IdentityCheck(i))
    && (v.stop.None? ==> |v.asked| == SYMBOLS)
  }

  lemma AskedAt(pf: Preflight, env: Environment, v: Checking, n: nat)
    requires |pf.symbols| == SYMBOLS && Checked(pf, env, v) && n < |v.asked|
    ensures v.asked[n] == Asked(IdentityCheck(n), ADMISSION + n + 1) && env.now(ADMISSION + n) < pf.expiry
  {
    hide IdentityTrace;
    assert AskedAtOnce(pf, env, v.asked, ADMISSION, n);
  }

  lemma CheckedNoShorter(pf: Preflight, env: Environment, v: Checking, w: Checking)
    requires |pf.symbols| == SYMBOLS && Checked(pf, env, v) && Checked(pf, env, w)
    ensures |v.asked| >= |w.asked|
  {
    hide Accepted, Rejection;
    if |v.asked| < |w.asked| {
      AskedAt(pf, env, w, |v.asked|);
    }
  }

  lemma CheckedOnce(pf: Preflight, env: Environment, v: Checking, w: Checking)
    requires |pf.symbols| == SYMBOLS && Checked(pf, env, v) && Checked(pf, env, w)
    ensures v == w
  {
    hide Accepted, Rejection, IdentityRecord;
    CheckedNoShorter(pf, env, v, w);
    CheckedNoShorter(pf, env, w, v);
    var n := |v.asked|;
    assert v.identity == w.identity;
    forall i | 0 <= i < n ensures v.asked[i] == w.asked[i] {
      AskedAt(pf, env, v, i);
      AskedAt(pf, env, w, i);
    }
    assert v.calls[..n] == w.calls[..n];
    assert v.stop == w.stop;
    assert v.calls == w.calls;
  }

  /** What the plan came to, and when. */
  datatype Observing = Observing(calls: seq<CallRecord>, asked: seq<Asked>, stop: Option<Reason>, readings: nat)

  ghost predicate WentThrough(pf: Preflight, env: Environment, from: nat, p: Observing) {
    && PlanTrace(pf, env, p.calls, |p.asked|, p.stop, |PLAN|)
    && PlanTimed(pf, env, p.asked, from, p.stop, p.readings)
    && (forall j :: 0 <= j < |p.asked| ==> p.asked[j].name == PLAN[j].name)
  }

  /** From a given look on there is one way to look for a request. */
  lemma LookedForOnce(pf: Preflight, env: Environment, j: nat, from: nat, to: nat, other: nat)
    requires j < |PLAN| && LookedFor(pf, env, j, from, to) && LookedFor(pf, env, j, from, other)
    ensures to == other
  {
  }

  lemma WentTo(pf: Preflight, env: Environment, from: nat, p: Observing, j: nat)
    requires WentThrough(pf, env, from, p) && j < |p.asked|
    ensures j < |PLAN| && p.asked[j].name == PLAN[j].name
    ensures LookedFor(pf, env, j, LooksBefore(p.asked, from, j), p.asked[j].looks)
  {
    hide PlanTrace, LookedFor;
    assert SentInTurn(pf, env, p.asked, from, j);
  }

  lemma {:induction false} SentAlike(pf: Preflight, env: Environment, from: nat, p: Observing, q: Observing, n: nat)
    requires WentThrough(pf, env, from, p) && WentThrough(pf, env, from, q) && n <= |p.asked| && n <= |q.asked|
    ensures p.asked[..n] == q.asked[..n] && LooksBefore(p.asked, from, n) == LooksBefore(q.asked, from, n)
    decreases n
  {
    hide WentThrough, LookedFor;
    if n > 0 {
      SentAlike(pf, env, from, p, q, n - 1);
      WentTo(pf, env, from, p, n - 1);
      WentTo(pf, env, from, q, n - 1);
      LookedForOnce(pf, env, n - 1, LooksBefore(p.asked, from, n - 1), p.asked[n - 1].looks, q.asked[n - 1].looks);
      assert p.asked[..n] == p.asked[..n - 1] + [p.asked[n - 1]];
      assert q.asked[..n] == q.asked[..n - 1] + [q.asked[n - 1]];
    }
  }

  lemma WentNoLessFar(pf: Preflight, env: Environment, from: nat, p: Observing, q: Observing)
    requires WentThrough(pf, env, from, p) && WentThrough(pf, env, from, q)
    ensures |p.asked| >= |q.asked|
  {
    hide LookedFor, Interruption, SettledRecord, Unsent, NoneSentFrom;
    var n := |p.asked|;
    if n < |q.asked| {
      SentAlike(pf, env, from, p, q, n);
      assert SentInTurn(pf, env, q.asked, from, n);
      if p.stop == Some(ExpiryReached) {
        LookedForOnce(pf, env, n, LooksBefore(p.asked, from, n), p.readings, q.asked[n].looks);
      }
    }
  }

  lemma SameStop(pf: Preflight, env: Environment, from: nat, p: Observing, q: Observing)
    requires WentThrough(pf, env, from, p) && WentThrough(pf, env, from, q) && p.asked == q.asked
    ensures p.stop == q.stop && p.readings == q.readings
  {
    hide LookedFor, Interruption, SettledRecord, Unsent, NoneSentFrom, SentInTurn;
    var n := |p.asked|;
    if p.stop == Some(ExpiryReached) && q.stop == Some(ExpiryReached) {
      LookedForOnce(pf, env, n, LooksBefore(p.asked, from, n), p.readings, q.readings);
    } else if n > 0 {
      assert Clear(pf, env, n) ==> Interruption(pf, env, n - 1).None?;
    }
  }

  lemma SameRecords(pf: Preflight, env: Environment, from: nat, p: Observing, q: Observing)
    requires WentThrough(pf, env, from, p) && WentThrough(pf, env, from, q)
    requires p.asked == q.asked && p.stop == q.stop
    ensures p.calls == q.calls
  {
    hide Interruption, SettledRecord, Unsent, Clear, PlanTimed;
    var a := |p.asked|;
    forall j | 0 <= j < |PLAN| ensures p.calls[j] == q.calls[j] {
    }
  }

  lemma WentThroughOnce(pf: Preflight, env: Environment, from: nat, p: Observing, q: Observing)
    requires WentThrough(pf, env, from, p) && WentThrough(pf, env, from, q)
    ensures p == q
  {
    hide WentThrough;
    WentNoLessFar(pf, env, from, p, q);
    WentNoLessFar(pf, env, from, q, p);
    SentAlike(pf, env, from, p, q, |p.asked|);
    assert p.asked[..|p.asked|] == p.asked && q.asked[..|q.asked|] == q.asked;
    SameStop(pf, env, from, p, q);
    SameRecords(pf, env, from, p, q);
  }

  function CheckingOf(r: Attempt, asked: seq<Asked>, readings: nat): Checking
    requires readings > 0 && (r.status != Blocked ==> |r.calls| >= SYMBOLS && |asked| >= SYMBOLS)
  {
    if r.status == Blocked then Checking(r.identity, r.calls, asked, Some(r.reason), readings - 1)
    else Checking(r.identity, r.calls[..SYMBOLS], asked[..SYMBOLS], None, ADMISSION + SYMBOLS)
  }

  function ObservingOf(r: Attempt, asked: seq<Asked>, readings: nat): Observing
    requires |r.calls| >= SYMBOLS && |asked| >= SYMBOLS && PlanEnd(r, readings) >= 0
  {
    Observing(r.calls[SYMBOLS..], asked[SYMBOLS..], PlanStop(r), PlanEnd(r, readings))
  }

  lemma ConnectedChecks(pf: Preflight, env: Environment, r: Attempt, asked: seq<Asked>, readings: nat)
    requires |pf.symbols| == SYMBOLS && readings > 0 && Connected(pf, env, r, asked, readings)
    ensures r.status != Blocked ==> |r.calls| >= SYMBOLS && |asked| >= SYMBOLS
    ensures Checked(pf, env, CheckingOf(r, asked, readings))
  {
    hide IdentityTrace, IdentityTimed, PlanTrace, PlanTimed, ReadsOf, BarsOf, Acceptance, Passed;
  }

  lemma ConnectedGoesThrough(pf: Preflight, env: Environment, r: Attempt, asked: seq<Asked>, readings: nat)
    requires |pf.symbols| == SYMBOLS && readings > 0 && Connected(pf, env, r, asked, readings) && r.status != Blocked
    ensures |r.calls| >= SYMBOLS && |asked| >= SYMBOLS && PlanEnd(r, readings) >= 0
    ensures WentThrough(pf, env, ADMISSION + SYMBOLS, ObservingOf(r, asked, readings))
    ensures r.quoteReads == ReadsOf(pf, env, |asked| - SYMBOLS) && r.bars == BarsOf(pf, env, |asked| - SYMBOLS)
  {
    hide IdentityTrace, IdentityTimed, PlanTrace, PlanTimed, ReadsOf, BarsOf, Acceptance, Passed;
    forall j | 0 <= j < |asked| - SYMBOLS ensures asked[SYMBOLS..][j].name == PLAN[j].name {
      assert asked[SYMBOLS + j].name == PLAN[SYMBOLS + j - SYMBOLS].name;
    }
  }

  lemma ConnectedOnce(pf: Preflight, env: Environment, r: Attempt, asked: seq<Asked>, readings: nat,
                      q: Attempt, others: seq<Asked>, looks: nat)
    requires |pf.symbols| == SYMBOLS && readings > 0 && looks > 0
    requires Connected(pf, env, r, asked, readings) && Connected(pf, env, q, others, looks)
    requires r.completedAt == env.now(readings - 1) && q.completedAt == env.now(looks - 1)
    ensures r == q && asked == others && readings == looks
  {
    hide Checked, WentThrough, BlockedByIdentity, Observed, Timed, IdentityTimed, ReadsOf, BarsOf, EvaluateAcceptance,
         Passed;
    ConnectedChecks(pf, env, r, asked, readings);
    ConnectedChecks(pf, env, q, others, looks);
    CheckedOnce(pf, env, CheckingOf(r, asked, readings), CheckingOf(q, others, looks));
    if r.status == Blocked {
      BlockedAlike(pf, env, r, asked, q, others);
    } else {
      ConnectedGoesThrough(pf, env, r, asked, readings);
      ConnectedGoesThrough(pf, env, q, others, looks);
      WentThroughOnce(pf, env, ADMISSION + SYMBOLS, ObservingOf(r, asked, readings), ObservingOf(q, others, looks));
      assert asked == asked[..SYMBOLS] + asked[SYMBOLS..] && others == others[..SYMBOLS] + others[SYMBOLS..];
      assert r.calls == r.calls[..SYMBOLS] + r.calls[SYMBOLS..] && q.calls == q.calls[..SYMBOLS] + q.calls[SYMBOLS..];
    }
  }

  lemma BlockedAlike(pf: Preflight, env: Environment, r: Attempt, asked: seq<Asked>, q: Attempt, others: seq<Asked>)
    requires |pf.symbols| == SYMBOLS && BlockedByIdentity(pf, env, r, asked) && BlockedByIdentity(pf, env, q, others)
    requires r.identity == q.identity && r.calls == q.calls && r.reason == q.reason && r.completedAt == q.completedAt
    ensures r == q
  {
    hide IdentityTrace;
  }

  /** Clock and answers determine the attempt: its record, the calls it sends and when, and how often it looks at
      the clock. */
  lemma ProtocolDeterminesAttempt(pf: Preflight, env: Environment, liveMode: bool, tradingDay: bool,
                                  r: Attempt, asked: seq<Asked>, readings: nat,
                                  q: Attempt, others: seq<Asked>, looks: nat)
    requires |pf.symbols| == SYMBOLS
    requires Protocol(pf, env, liveMode, tradingDay, r, asked, readings)
    requires Protocol(pf, env, liveMode, tradingDay, q, others, looks)
    ensures r == q && asked == others && readings == looks
  {
    hide Connected;
    if liveMode && tradingDay && env.now(1) < pf.expiry && env.now(2) <= pf.boundary - 60000 && env.connects {
      ConnectedOnce(pf, env, r, asked, readings, q, others, looks);
    }
  }
}
