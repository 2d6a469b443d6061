/** What every simulated trade costs, risks and aims at, which events are traded, and over which bars, said of the
    events, the assumptions and the sessions alone (services/scanner/app/backtest.py:209-318, 419-432). */
module BacktestPlans {
  import opened Lists
  import opened Clock
  import opened Candles
  import opened BacktestEconomics
  import opened BacktestTrades

  // ------------------------------------------------------------------ one observation per setup

  /** The same setup instance, else the same event, else the same instrument, strategy and instant. */
  predicate SameSetup(x: StateEvent, y: StateEvent) {
    if x.setupInstanceId.Some? || y.setupInstanceId.Some? then x.setupInstanceId == y.setupInstanceId
    else if x.eventId.Some? || y.eventId.Some? then x.eventId == y.eventId
    else x.instrument == y.instrument && x.strategy == y.strategy && x.timestamp == y.timestamp
  }

  /** The first ready event of its setup that reaches the cutoff. */
  predicate FirstReady(a: Assumptions, events: seq<StateEvent>, i: nat)
    requires i < |events|
  {
    && events[i].ready && a.scoreCutoff <= events[i].score
    && forall j :: 0 <= j < i ==>
         !(events[j].ready && a.scoreCutoff <= events[j].score && SameSetup(events[j], events[i]))
  }

  lemma FirstReadyExactly(a: Assumptions, events: seq<StateEvent>, i: nat)
    requires i < |events|
    ensures FirstOfIdentity(a, events, i) <==> FirstReady(a, events, i)
  {
    forall j | 0 <= j < i ensures IdentityOf(events[j]) == IdentityOf(events[i]) <==> SameSetup(events[j], events[i]) {
    }
  }

  // ------------------------------------------------------------------ the plan

  /** As many whole shares as the position size pays for. */
  predicate Affords(size: real, entry: real, shares: nat) {
    if 0.0 < entry then shares as real * entry <= size < (shares + 1) as real * entry
    else (shares + 1) as real * entry < size <= shares as real * entry
  }

  predicate StopsAt(a: Assumptions, e: StateEvent, stop: real)
    requires e.entryReference.Some?
  {
    if a.stopMethod == Atr then
      e.feature.Some? && e.feature.value.atr14.Some? &&
      e.entryReference.value - stop == a.atrStopMultiple * e.feature.value.atr14.value
    else e.stopReference == Some(stop)
  }

  predicate AimsAt(a: Assumptions, e: StateEvent, stop: real, target: real)
    requires e.entryReference.Some?
  {
    if a.rewardRiskRatio.Some? then
      target - e.entryReference.value == a.rewardRiskRatio.value * (e.entryReference.value - stop)
    else e.targetReference == Some(target)
  }

  /** Bought above the reference by the slippage, between stop and target, in whole shares the position size pays for,
      and clear of the gates if there are any. */
  predicate PlannedAs(a: Assumptions, e: StateEvent, p: Plan) {
    && e.entryReference.Some?
    && p.entry == e.entryReference.value * (1.0 + a.slippageBps / 10000.0)
    && StopsAt(a, e, p.stop) && AimsAt(a, e, p.stop, p.target)
    && p.stop < p.entry && p.entry < p.target
    && 1 <= p.shares && Affords(a.positionSize, p.entry, p.shares)
    && (a.economics.Some? ==>
          ClearsGates(a.economics.value, p.entry, p.stop, p.target, p.shares, a.slippageBps / 10000.0, a.feePerTrade,
                      if e.feature.Some? then Some(e.feature.value.spreadAbsolute) else None))
  }

  lemma FloorAffords(size: real, entry: real, shares: nat)
    requires entry != 0.0 && shares >= 1
    ensures Affords(size, entry, shares) <==> (size / entry).Floor == shares
  {
    var q := size / entry;
    assert q * entry == size;
    assert (shares + 1) as real == shares as real + 1.0;
    if entry > 0.0 {
      Scaled(q, shares as real, entry);
      Scaled(q, (shares + 1) as real, entry);
    } else {
      Scaled(q, shares as real, -entry);
      Scaled(q, (shares + 1) as real, -entry);
    }
  }

  lemma Scaled(x: real, y: real, n: real)
    requires n > 0.0
    ensures x < y <==> x * n < y * n
    ensures x < y <==> y * -n < x * -n
  {
    if x < y { ProductPositive(y - x, n); }
    if x > y { ProductPositive(x - y, n); }
  }

  lemma StopExactly(a: Assumptions, e: StateEvent, stop: real)
    requires e.entryReference.Some?
    ensures StopFor(a, e, e.entryReference.value) == Some(stop) <==> StopsAt(a, e, stop)
  {
  }

  lemma TargetExactly(a: Assumptions, e: StateEvent, stop: real, target: real)
    requires e.entryReference.Some?
    ensures TargetFor(a, e, e.entryReference.value, stop) == Some(target) <==> AimsAt(a, e, stop, target)
  {
  }

  /** The same by the steps a plan is made in. */
  predicate Made(a: Assumptions, e: StateEvent, p: Plan) {
    && e.entryReference.Some?
    && (a.stopMethod.Structural? ==> e.stopReference.Some?) && (a.rewardRiskRatio.None? ==> e.targetReference.Some?)
    && p.entry == SlippedEntry(a, e.entryReference.value) && p.entry != 0.0
    && StopFor(a, e, e.entryReference.value) == Some(p.stop)
    && TargetFor(a, e, e.entryReference.value, p.stop) == Some(p.target)
    && p.stop < p.entry && p.entry < p.target
    && p.shares >= 1 && (a.positionSize / p.entry).Floor == p.shares
    && (a.economics.Some? ==>
          Viable(a.economics.value, p.entry, p.stop, p.target, p.shares, Slip(a), a.feePerTrade, SpreadOf(e)))
  }

  function SpreadOf(e: StateEvent): Option<real> {
    if e.feature.Some? then Some(e.feature.value.spreadAbsolute) else None
  }

  lemma PlanIsMade(a: Assumptions, e: StateEvent, p: Plan)
    requires Priced(a, e)
    ensures PlanFor(a, e) == Some(p) <==> Made(a, e, p)
  {
    hide StopFor, TargetFor, Viable, SlippedEntry, Slip;
  }

  lemma NeedsReferences(a: Assumptions, e: StateEvent, stop: real, target: real)
    requires e.entryReference.Some?
    ensures StopsAt(a, e, stop) && a.stopMethod.Structural? ==> e.stopReference.Some?
    ensures AimsAt(a, e, stop, target) && a.rewardRiskRatio.None? ==> e.targetReference.Some?
  {
  }

  /** No slipped entry of zero lies between a stop and a target. */
  lemma EntryIsPriced(a: Assumptions, e: StateEvent, stop: real, target: real)
    requires Priced(a, e) && e.entryReference.Some?
    requires StopFor(a, e, e.entryReference.value) == Some(stop)
    requires TargetFor(a, e, e.entryReference.value, stop) == Some(target)
    ensures stop < SlippedEntry(a, e.entryReference.value) < target ==> SlippedEntry(a, e.entryReference.value) != 0.0
  {
    hide StopFor, TargetFor, SlippedEntry;
  }

  /** Whole shares and gates, once entry, stop and target are as planned. */
  lemma SizedExactly(a: Assumptions, e: StateEvent, p: Plan)
    requires p.entry != 0.0 && p.shares >= 1
    ensures (a.positionSize / p.entry).Floor == p.shares <==> Affords(a.positionSize, p.entry, p.shares)
    ensures a.economics.Some? ==>
      (Viable(a.economics.value, p.entry, p.stop, p.target, p.shares, Slip(a), a.feePerTrade, SpreadOf(e)) <==>
       ClearsGates(a.economics.value, p.entry, p.stop, p.target, p.shares, a.slippageBps / 10000.0, a.feePerTrade,
                   SpreadOf(e)))
  {
    hide Viable, ClearsGates, Affords, SpreadOf;
    FloorAffords(a.positionSize, p.entry, p.shares);
    if a.economics.Some? {
      ViableExactly(a.economics.value, p.entry, p.stop, p.target, p.shares, Slip(a), a.feePerTrade, SpreadOf(e));
    }
  }

  /** There is a plan exactly when these conditions can be met, and it is the one that meets them. */
  lemma PlanExactly(a: Assumptions, e: StateEvent, p: Plan)
    requires Priced(a, e)
    ensures PlanFor(a, e) == Some(p) <==> PlannedAs(a, e, p)
  {
    PlanIsMade(a, e, p);
    hide PlanFor, Priced, StopFor, TargetFor, StopsAt, AimsAt, Viable, ClearsGates, Affords;
    if e.entryReference.Some? {
      StopExactly(a, e, p.stop);
      TargetExactly(a, e, p.stop, p.target);
      NeedsReferences(a, e, p.stop, p.target);
      if StopsAt(a, e, p.stop) && AimsAt(a, e, p.stop, p.target) {
        EntryIsPriced(a, e, p.stop, p.target);
      }
      if p.shares >= 1 && p.entry != 0.0 {
        SizedExactly(a, e, p);
      }
    }
  }

  /** The source raises exactly where a slipped entry of zero lies between stop and target. */
  lemma PricedExactly(a: Assumptions, e: StateEvent)
    ensures Priced(a, e) <==>
            !(e.entryReference.Some? && e.entryReference.value * (1.0 + a.slippageBps / 10000.0) == 0.0 &&
              exists stop, target :: StopsAt(a, e, stop) && AimsAt(a, e, stop, target) && stop < 0.0 < target)
  {
    hide StopFor, TargetFor, StopsAt, AimsAt;
    if e.entryReference.Some? {
      forall stop { StopExactly(a, e, stop); }
      forall stop, target { TargetExactly(a, e, stop, target); }
    }
  }

  // ------------------------------------------------------------------ the bars

  /** The last session of the event's local date that has a bar of its instrument. */
  ghost predicate Supplies(sessions: seq<(Time, seq<Candle>)>, zone: Zone, e: StateEvent, k: nat) {
    && k < |sessions|
    && LocalDate(zone, sessions[k].0) == LocalDate(zone, e.timestamp)
    && (exists c :: c in sessions[k].1 && c.id == e.instrument)
    && forall j :: k < j < |sessions| && LocalDate(zone, sessions[j].0) == LocalDate(zone, e.timestamp) ==>
         forall c :: c in sessions[j].1 ==> c.id != e.instrument
  }

  lemma {:induction false} SuppliedBars(sessions: seq<(Time, seq<Candle>)>, zone: Zone, e: StateEvent, k: nat)
    requires Supplies(sessions, zone, e, k)
    ensures var key := (LocalDate(zone, e.timestamp), e.instrument);
            key in GroupBars(sessions, zone) &&
            GroupBars(sessions, zone)[key] == InstrumentBars(sessions[k].1, e.instrument)
  {
    hide LocalDate, InstrumentBars;
    var n := |sessions| - 1;
    if k < n {
      EarlierSupplies(sessions, zone, e, k);
      SuppliedBars(sessions[..n], zone, e, k);
    }
  }

  lemma {:induction false} SuppliedOnly(sessions: seq<(Time, seq<Candle>)>, zone: Zone, e: StateEvent)
    requires (LocalDate(zone, e.timestamp), e.instrument) in GroupBars(sessions, zone)
    ensures exists k: nat :: Supplies(sessions, zone, e, k)
  {
    hide LocalDate, InstrumentBars;
    var n := |sessions| - 1;
    if LocalDate(zone, sessions[n].0) == LocalDate(zone, e.timestamp) && e.instrument in Traded(sessions[n].1) {
      assert Supplies(sessions, zone, e, n);
    } else {
      SuppliedOnly(sessions[..n], zone, e);
      var k: nat :| Supplies(sessions[..n], zone, e, k);
      EarlierSupplies(sessions, zone, e, k);
    }
  }

  lemma EarlierSupplies(sessions: seq<(Time, seq<Candle>)>, zone: Zone, e: StateEvent, k: nat)
    requires k < |sessions| - 1
    ensures Supplies(sessions, zone, e, k) ==> Supplies(sessions[..|sessions| - 1], zone, e, k)
    ensures var last := sessions[|sessions| - 1];
            !(LocalDate(zone, last.0) == LocalDate(zone, e.timestamp) &&
              exists c :: c in last.1 && c.id == e.instrument) ==>
              (Supplies(sessions[..|sessions| - 1], zone, e, k) ==> Supplies(sessions, zone, e, k))
  {
    hide LocalDate;
    var n := |sessions| - 1;
    assert forall j :: 0 <= j < n ==> sessions[..n][j] == sessions[j];
  }

  /** The bars a trade can exit on: those of that session that start at or after the signal, in order of their
      start, each as often as the session has it. */
  lemma BarsFollowTheSignal(
      sessions: seq<(Time, seq<Candle>)>, zone: Zone, e: StateEvent, k: nat, c: Candle)
    requires Supplies(sessions, zone, e, k)
    ensures var future := BarsOf(GroupBars(sessions, zone), zone, e);
            && Ascending(future, StartOf)
            && multiset(future)[c] ==
               if c.id == e.instrument && e.timestamp <= c.start then multiset(sessions[k].1)[c] else 0
  {
    hide LocalDate, GroupBars, InstrumentBars;
    SuppliedBars(sessions, zone, e, k);
    hide Supplies;
    var bars := InstrumentBars(sessions[k].1, e.instrument);
    InstrumentBarsAscend(sessions[k].1, e.instrument);
    StartingFromAscends(bars, e.timestamp);
    FilterMultiset(bars, (c: Candle) => e.timestamp <= c.start, c);
    InstrumentBarsCounted(sessions[k].1, e.instrument, c);
  }

  /** Without such a session there are none. */
  lemma NoBarsWithoutSession(sessions: seq<(Time, seq<Candle>)>, zone: Zone, e: StateEvent)
    requires forall k: nat :: !Supplies(sessions, zone, e, k)
    ensures BarsOf(GroupBars(sessions, zone), zone, e) == []
  {
    hide LocalDate, GroupBars, Supplies;
    if (LocalDate(zone, e.timestamp), e.instrument) in GroupBars(sessions, zone) {
      SuppliedOnly(sessions, zone, e);
    }
  }

  lemma InstrumentBarsCounted(candles: seq<Candle>, id: InstrumentId, c: Candle)
    ensures multiset(InstrumentBars(candles, id))[c] == if c.id == id then multiset(candles)[c] else 0
  {
    SortByKeySorts(Filter(candles, (c: Candle) => c.id == id), StartOf);
    FilterMultiset(candles, (c: Candle) => c.id == id, c);
  }

  // ------------------------------------------------------------------ the trades

  /** The stop is filled at the lower of stop and open, the target at the target, the close at the close. */
  predicate FilledAt(x: Exit, stop: real, target: real) {
    match x.reason
    case Stop => x.bar.low <= stop && x.raw == (if x.bar.open < stop then x.bar.open else stop)
    case Target => stop < x.bar.low && target <= x.bar.high && x.raw == target
    case SessionClose => stop < x.bar.low && x.bar.high < target && x.raw == x.bar.close
  }

  /** What an exit earns, less slippage and fee. */
  predicate SettledAt(a: Assumptions, t: Trade) {
    && t.exitPrice == t.exit.raw * (1.0 - a.slippageBps / 10000.0)
    && t.gross == (t.exitPrice - t.plan.entry) * t.plan.shares as real
    && t.net == t.gross - a.feePerTrade
    && t.rMultiple * ((t.plan.entry - t.plan.stop) * t.plan.shares as real) == t.net
  }

  /** The trade of the i-th event. */
  ghost predicate TradedAs(
      a: Assumptions, sessions: seq<(Time, seq<Candle>)>, zone: Zone, events: seq<StateEvent>, i: nat, t: Trade)
  {
    && i < |events| && FirstReady(a, events, i) && t.event == events[i]
    && PlannedAs(a, events[i], t.plan)
    && var future := BarsOf(GroupBars(sessions, zone), zone, events[i]);
       && future != [] && t.exit == ExitOf(future, t.plan.stop, t.plan.target)
       && FilledAt(t.exit, t.plan.stop, t.plan.target)
       && SettledAt(a, t) && t.identity == IdentityOf(events[i])
  }

  lemma ExitFilled(bars: seq<Candle>, stop: real, target: real)
    requires bars != []
    ensures FilledAt(ExitOf(bars, stop, target), stop, target)
  {
    var k := FirstTouch(bars, stop, target);
    if k == |bars| { assert !Touches(bars[|bars| - 1], stop, target); }
  }

  lemma SettleSettles(a: Assumptions, e: StateEvent, plan: Plan, exit: Exit, t: Trade)
    requires plan.stop < plan.entry && plan.shares >= 1
    ensures t == Settle(a, e, plan, exit) <==>
            t.event == e && t.plan == plan && t.exit == exit && t.identity == IdentityOf(e) && SettledAt(a, t)
  {
    hide IdentityOf;
    var risk := (plan.entry - plan.stop) * plan.shares as real;
    ProductPositive(plan.entry - plan.stop, plan.shares as real);
    var exitPrice := exit.raw * (1.0 - a.slippageBps / 10000.0);
    var net := (exitPrice - plan.entry) * plan.shares as real - a.feePerTrade;
    OneQuotient(t.rMultiple, net, risk);
  }

  lemma OneQuotient(x: real, y: real, n: real)
    requires n > 0.0
    ensures x * n == y <==> x == y / n
  {
    assert y / n * n == y;
    assert x * n == y ==> x * n / n == y / n;
    assert x * n / n == x;
  }

  lemma TradeExactly(a: Assumptions, sessions: seq<(Time, seq<Candle>)>, zone: Zone, events: seq<StateEvent>,
                     i: nat, t: Trade)
    requires i < |events| && Priced(a, events[i])
    ensures FirstOfIdentity(a, events, i) && TradeFor(a, GroupBars(sessions, zone), zone, events[i]) == Some(t) <==>
            TradedAs(a, sessions, zone, events, i, t)
  {
    hide Priced, PlanFor, PlannedAs, GroupBars, BarsOf, ExitOf, FirstOfIdentity, FirstReady, Settle, SettledAt,
         IdentityOf, FilledAt;
    var e, future := events[i], BarsOf(GroupBars(sessions, zone), zone, events[i]);
    FirstReadyExactly(a, events, i);
    PlanExactly(a, e, t.plan);
    if PlanFor(a, e).Some? { PlanExactly(a, e, PlanFor(a, e).value); }
    if future != [] {
      if PlannedAs(a, e, t.plan) {
        PlannedIsSound(a, e, t.plan);
        ExitFilled(future, t.plan.stop, t.plan.target);
        SettleSettles(a, e, t.plan, ExitOf(future, t.plan.stop, t.plan.target), t);
      }
      if PlanFor(a, e).Some? {
        var plan := PlanFor(a, e).value;
        PlannedIsSound(a, e, plan);
        SettleSettles(a, e, plan, ExitOf(future, plan.stop, plan.target),
                      Settle(a, e, plan, ExitOf(future, plan.stop, plan.target)));
      }
    }
  }

  lemma PlannedIsSound(a: Assumptions, e: StateEvent, p: Plan)
    requires PlannedAs(a, e, p)
    ensures p.stop < p.entry && p.shares >= 1
  {
    hide StopsAt, AimsAt, Affords, ClearsGates;
  }

  lemma {:induction false} ListedExactly(a: Assumptions, sessions: seq<(Time, seq<Candle>)>, zone: Zone,
                                         events: seq<StateEvent>, n: nat, t: Trade)
    requires n <= |events| && forall i :: 0 <= i < |events| ==> Priced(a, events[i])
    ensures t in TradesUpTo(a, GroupBars(sessions, zone), zone, events, n) <==>
            exists i :: 0 <= i < n && TradedAs(a, sessions, zone, events, i, t)
  {
    hide Priced, TradedAs, GroupBars, TradeFor, FirstOfIdentity;
    if n > 0 {
      ListedExactly(a, sessions, zone, events, n - 1, t);
      TradeExactly(a, sessions, zone, events, n - 1, t);
      var bars := GroupBars(sessions, zone);
      if FirstOfIdentity(a, events, n - 1) && TradeFor(a, bars, zone, events[n - 1]).Some? {
        TradeExactly(a, sessions, zone, events, n - 1, TradeFor(a, bars, zone, events[n - 1]).value);
      }
    }
  }

  /** The simulation returns, in order of entry, exactly these trades: every first ready event of its setup that can be
      planned and has a bar left is traded as planned, and nothing else is. */
  lemma TradesExactly(a: Assumptions, sessions: seq<(Time, seq<Candle>)>, zone: Zone, events: seq<StateEvent>, t: Trade)
    requires forall i :: 0 <= i < |events| ==> Priced(a, events[i])
    ensures t in SortByKey(TradesUpTo(a, GroupBars(sessions, zone), zone, events, |events|), EntryTime) <==>
            exists i :: 0 <= i < |events| && TradedAs(a, sessions, zone, events, i, t)
  {
    hide TradesUpTo, TradedAs, Priced, GroupBars;
    var trades := TradesUpTo(a, GroupBars(sessions, zone), zone, events, |events|);
    SortByKeySorts(trades, EntryTime);
    ListedExactly(a, sessions, zone, events, |events|, t);
    assert t in trades <==> t in multiset(trades);
    assert t in SortByKey(trades, EntryTime) <==> t in multiset(SortByKey(trades, EntryTime));
  }
}
