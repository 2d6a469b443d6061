/** A run whose status and stored acceptance disagree: everything goes well, and the expiry falls between the two
    last looks at the clock. */
module FeedProbeWitness {
  import opened Lists
  import opened FeedProbe
  import opened FeedProbeAttempts
  import opened FeedProbeTiming

  /** The sixteenth minute of the epoch; the expiry is a minute later. */
  const BOUNDARY: int := 960000
  const EXPIRY: int := 1020000

  const SETTING: Preflight := Preflight(
    [ProbeSymbol("S", 1), ProbeSymbol("S", 2), ProbeSymbol("S", 3), ProbeSymbol("S", 4), ProbeSymbol("S", 5)],
    BOUNDARY, EXPIRY)

  const PRICES: Ohlcv := Ohlcv(1.0, 1.0, 1.0, 1.0, 1.0)

  const QUOTES: seq<RawQuote> :=
    [RawQuote(1, Flag(false)), RawQuote(2, Flag(false)), RawQuote(3, Flag(false)), RawQuote(4, Flag(false)),
     RawQuote(5, Flag(false))]

  /** When the n-th call is sent: an identity call ahead of time, a planned one at its instant. */
  function SentAt(n: nat): int {
    if n < SYMBOLS then BOUNDARY - 60000 else if n < 18 then BOUNDARY + PLAN[n - SYMBOLS].offset else EXPIRY
  }

  /** It is answered a tenth of a second later. */
  function Answered<T>(n: nat, value: T): Outcome<T> {
    Outcome(Some(value), Completed, None, Some(SentAt(n)), Some(SentAt(n) + 100))
  }

  /** Three looks admit the attempt and one goes with each identity call; each planned request takes two at its
      instant. The 35th look is the provisional one, the 36th the last. */
  function Clock(k: nat): int {
    if k < 8 then BOUNDARY - 60000 else if k < 34 then SentAt(SYMBOLS + (k - 8) / 2)
    else if k == 34 then EXPIRY else EXPIRY + 1
  }

  function Listed(n: nat): seq<RawSymbol> { [RawSymbol("S", n + 1, "TSX", Some("CAD"), true, true)] }

  const SMOOTH: Environment := Environment(
    Clock, true, (n: nat) => Answered(n, Listed(n)), (n: nat) => Answered(n, QUOTES),
    (n: nat) => Answered(n, [RawCandle(BOUNDARY - 300000, BOUNDARY, PRICES)]), [200])

  function Identities(): seq<IdentityOutcome> {
    seq(5, i requires 0 <= i < 5 => Verdict(SETTING.symbols[i], SMOOTH.search(i)))
  }

  function IdentityCall(i: nat): CallRecord {
    IdentityRecord(i, Settled(Completed), None, Some(SentAt(i)), Some(SentAt(i) + 100))
  }

  function Calls(): seq<CallRecord> {
    seq(5, i requires 0 <= i < 5 => IdentityCall(i)) +
    seq(|PLAN|, k requires 0 <= k < |PLAN| => SettledRecord(SETTING, SMOOTH, k))
  }

  function EarlyCalls(): seq<Asked> { seq(5, i requires 0 <= i < 5 => Asked(IdentityCheck(i), 4 + i)) }

  function PlannedCalls(): seq<Asked> {
    seq(|PLAN|, k requires 0 <= k < |PLAN| => Asked(PLAN[k].name, 10 + 2 * k))
  }

  function Made(): Attempt {
    var r := Attempt(CompletedAccepted, RunCompleted(true), Identities(), Calls(), ReadsOf(SETTING, SMOOTH, |PLAN|),
                     BarsOf(SETTING, SMOOTH, |PLAN|), SMOOTH.now(35), None);
    r.(acceptance := Some(Acceptance(SMOOTH, SETTING, r, r.completedAt)))
  }

  lemma SymbolAccepted(i: nat)
    requires i < 5
    ensures Verdict(SETTING.symbols[i], SMOOTH.search(i)).accepted
  {
    var symbol := SETTING.symbols[i];
    FilterAll(Listed(i), (c: RawSymbol) => c.symbol == symbol.providerSymbol);
  }

  lemma SymbolQuoted(symbol: ProbeSymbol)
    requires symbol in SETTING.symbols
    ensures ObserveSymbol(symbol, QUOTES).returned && KnownUndelayed(ObserveSymbol(symbol, QUOTES).delay)
  {
    assert QUOTES[symbol.symbolId - 1] == RawQuote(symbol.symbolId, Flag(false));
    assert RawQuote(symbol.symbolId, Flag(false)) in QUOTES;
  }

  lemma QuotesGood()
    ensures !AnyDelay(ObserveSymbols(SETTING, QUOTES))
    ensures forall s :: s in ObserveSymbols(SETTING, QUOTES) ==> s.returned
  {
    hide ObserveSymbol;
    var observed := ObserveSymbols(SETTING, QUOTES);
    forall i | 0 <= i < |observed| ensures observed[i].returned && KnownUndelayed(observed[i].delay) {
      assert SETTING.symbols[i] in SETTING.symbols;
      SymbolQuoted(SETTING.symbols[i]);
    }
  }

  lemma NothingInterrupts()
    ensures Clear(SETTING, SMOOTH, |PLAN|)
  {
    hide AnyDelay, ObserveSymbols;
    QuotesGood();
  }

  lemma AllObserved()
    ensures Observed(SETTING, SMOOTH, Made(), EarlyCalls() + PlannedCalls(), None)
  {
    hide Interruption, SettledRecord, ReadsOf, BarsOf, Verdict, Clear, Acceptance;
    var r := Made();
    NothingInterrupts();
    forall i | 0 <= i < 5 ensures Verdict(SETTING.symbols[i], SMOOTH.search(i)).accepted {
      SymbolAccepted(i);
    }
    assert r.calls[..SYMBOLS] == Calls()[..5];
    assert r.calls[SYMBOLS..] == seq(|PLAN|, k requires 0 <= k < |PLAN| => SettledRecord(SETTING, SMOOTH, k));
  }

  lemma EveryBarTheSame()
    ensures AllPresent(Made().bars) && forall s :: 0 <= s < SYMBOLS ==> SameInBothReads(Made().bars, s)
  {
    hide Interruption, SettledRecord, ReadsOf, BarsOf, Verdict, Acceptance, Clear;
    NothingInterrupts();
    BarsInOrder(SETTING, SMOOTH, |PLAN|);
  }

  lemma EveryoneReturned()
    ensures AllReturned(Made().quoteReads)
  {
    hide Interruption, SettledRecord, ReadsOf, BarsOf, Verdict, Acceptance, Clear, ObserveSymbols, AnyDelay;
    NothingInterrupts();
    QuotesGood();
    ReadsInOrder(SETTING, SMOOTH, |PLAN|);
  }

  lemma NothingSettledLate()
    ensures SettledBy(Made().calls, EXPIRY)
  {
    hide ReadsOf, BarsOf, Identities, Acceptance, SettledRecord;
    forall i | 0 <= i < |Calls()| ensures Calls()[i].settledAt.None? || Calls()[i].settledAt.value <= EXPIRY {
      if i >= 5 { SettledInTime(i - 5); }
    }
    assert Made().calls == Calls();
  }

  lemma SettledInTime(k: nat)
    requires k < |PLAN|
    ensures SettledRecord(SETTING, SMOOTH, k).settledAt == Some(SentAt(SYMBOLS + k) + 100)
    ensures SentAt(SYMBOLS + k) + 100 <= EXPIRY
  {
  }

  /** It is accepted up to the expiry and not after. */
  lemma AcceptedUntilExpiry(completedAt: int)
    ensures Passed(Acceptance(SMOOTH, SETTING, Made(), completedAt)) <==> completedAt <= EXPIRY
  {
    hide Observed, Passed, Acceptance, Made, SameInBothReads, AllReturned, SettledBy;
    AllObserved();
    EveryBarTheSame();
    EveryoneReturned();
    NothingSettledLate();
    AcceptedExactlyWhen(SETTING, SMOOTH, Made(), EarlyCalls() + PlannedCalls(), completedAt);
  }

  /** Every planned request is sent at its instant, after the second look at it. */
  lemma SentAtItsInstant(k: nat)
    requires k < |PLAN|
    ensures LookedFor(SETTING, SMOOTH, k, 8 + 2 * k, 10 + 2 * k) && SMOOTH.now(9 + 2 * k) < EXPIRY
  {
    var due := BOUNDARY + PLAN[k].offset;
    assert (8 + 2 * k - 8) / 2 == k == (9 + 2 * k - 8) / 2;
    assert SMOOTH.now(8 + 2 * k) == due == SMOOTH.now(9 + 2 * k);
  }

  lemma AllInTime()
    ensures Timed(SETTING, SMOOTH, EarlyCalls() + PlannedCalls(), None, 34)
  {
    hide LookedFor;
    var asked := EarlyCalls() + PlannedCalls();
    assert asked[..SYMBOLS] == EarlyCalls() && asked[SYMBOLS..] == PlannedCalls();
    forall k | 0 <= k < |PLAN| ensures SentInTurn(SETTING, SMOOTH, PlannedCalls(), 8, k) {
      SentAtItsInstant(k);
      assert LooksBefore(PlannedCalls(), 8, k) == 8 + 2 * k;
    }
  }

  /** The protocol admits this attempt: its status says accepted, its stored acceptance says not. */
  lemma StatusAndAcceptanceDisagree()
    ensures Protocol(SETTING, SMOOTH, true, true, Made(), EarlyCalls() + PlannedCalls(), 36)
    ensures Made().status.CompletedAccepted? && Made().acceptance.Some? && !Passed(Made().acceptance.value)
  {
    hide Observed, Timed, Passed, EvaluateAcceptance;
    AllObserved();
    AllInTime();
    AcceptedUntilExpiry(SMOOTH.now(34));
    AcceptedUntilExpiry(SMOOTH.now(35));
    AcceptanceOfMade();
  }

  /** In this environment that is what the attempt comes to. */
  method RunSmoothly() returns (r: Attempt)
    ensures r == Made()
    ensures r.status.CompletedAccepted? && r.acceptance.Some? && !Passed(r.acceptance.value)
  {
    hide Protocol, Passed, Made, Acceptance;
    var deps := new Deps(SMOOTH);
    r := RunFeedProbeAttempt(SETTING, deps, true, true, 34);
    StatusAndAcceptanceDisagree();
    ProtocolDeterminesAttempt(SETTING, SMOOTH, true, true, r, deps.asked, deps.readings,
                              Made(), EarlyCalls() + PlannedCalls(), 36);
  }

  /** The stored acceptance is the evaluation at the last look. */
  lemma AcceptanceOfMade()
    ensures Made().acceptance == Some(Acceptance(SMOOTH, SETTING, Made(), SMOOTH.now(35)))
  {
    hide EvaluateAcceptance;
  }
}
