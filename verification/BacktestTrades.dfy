/** Simulation of trades from READY events over completed bars (services/scanner/app/backtest.py:200-318, 419-432). */
module BacktestTrades {
  import opened Lists
  import opened Clock
  import opened Candles
  import opened BacktestEconomics

  /** One observation per setup lifecycle; older payloads fall back to the event or to the final tuple. */
  datatype ReadyIdentity =
    | BySetup(setup: string)
    | ByEvent(event: string)
    | Legacy(instrument: InstrumentId, strategy: string, timestamp: Time)

  datatype Feature = Feature(atr14: Option<real>, spreadAbsolute: real)

  datatype StateEvent = StateEvent(
    setupInstanceId: Option<string>, eventId: Option<string>, instrument: InstrumentId, symbol: string,
    strategy: string, timestamp: Time, ready: bool, score: int,
    entryReference: Option<real>, stopReference: Option<real>, targetReference: Option<real>,
    feature: Option<Feature>)

  datatype StopMethod = Structural | Atr

  datatype Assumptions = Assumptions(
    positionSize: real, slippageBps: real, feePerTrade: real, stopMethod: StopMethod, atrStopMultiple: real,
    rewardRiskRatio: Option<real>, economics: Option<Gates>, scoreCutoff: int)

  datatype ExitReason = Stop | Target | SessionClose

  datatype Exit = Exit(bar: Candle, raw: real, reason: ExitReason)

  datatype Plan = Plan(entry: real, stop: real, target: real, shares: nat)

  datatype Trade = Trade(
    identity: ReadyIdentity, event: StateEvent, plan: Plan, exit: Exit,
    exitPrice: real, gross: real, net: real, rMultiple: real)

  function IdentityOf(e: StateEvent): ReadyIdentity {
    if e.setupInstanceId.Some? then BySetup(e.setupInstanceId.value)
    else if e.eventId.Some? then ByEvent(e.eventId.value)
    else Legacy(e.instrument, e.strategy, e.timestamp)
  }

  // ------------------------------------------------------------------ bars of a session

  type SessionBars = map<(int, InstrumentId), seq<Candle>>

  function StartOf(c: Candle): int { c.start }

  function BarsOf(bars: SessionBars, zone: Zone, e: StateEvent): seq<Candle> {
    var key := (LocalDate(zone, e.timestamp), e.instrument);
    StartingFrom(if key in bars then bars[key] else [], e.timestamp)
  }

  /** A later session of the same local date replaces an instrument's bars. */
  function GroupBars(sessions: seq<(Time, seq<Candle>)>, zone: Zone): SessionBars {
    if sessions == [] then map[]
    else
      var (start, candles) := sessions[|sessions| - 1];
      var date := LocalDate(zone, start);
      GroupBars(sessions[..|sessions| - 1], zone) +
      map id | id in Traded(candles) :: (date, id) := InstrumentBars(candles, id)
  }

  function Traded(candles: seq<Candle>): set<InstrumentId> { set c | c in candles :: c.id }

  function InstrumentBars(candles: seq<Candle>, id: InstrumentId): seq<Candle> {
    SortByKey(Filter(candles, (c: Candle) => c.id == id), StartOf)
  }

  // ------------------------------------------------------------------ the plan of a trade

  function Slip(a: Assumptions): real { a.slippageBps / 10000.0 }

  function SlippedEntry(a: Assumptions, reference: real): real { reference * (1.0 + Slip(a)) }

  /** The stop after the stop method is applied. */
  function StopFor(a: Assumptions, e: StateEvent, reference: real): Option<real> {
    if a.stopMethod.Atr? then
      if e.feature.Some? && e.feature.value.atr14.Some?
      then Some(reference - e.feature.value.atr14.value * a.atrStopMultiple)
      else None
    else e.stopReference
  }

  function TargetFor(a: Assumptions, e: StateEvent, reference: real, stop: real): Option<real> {
    if a.rewardRiskRatio.Some? then Some(reference + (reference - stop) * a.rewardRiskRatio.value)
    else e.targetReference
  }

  /** The source divides by the slipped entry once stop < entry < target: a zero entry there raises. */
  predicate Priced(a: Assumptions, e: StateEvent) {
    e.entryReference.Some? && StopFor(a, e, e.entryReference.value).Some? ==>
      var reference, stop := e.entryReference.value, StopFor(a, e, e.entryReference.value).value;
      var target := TargetFor(a, e, reference, stop);
      target.Some? && stop < SlippedEntry(a, reference) < target.value ==> SlippedEntry(a, reference) != 0.0
  }

  function PlanFor(a: Assumptions, e: StateEvent): Option<Plan>
    requires Priced(a, e)
  {
    if e.entryReference.None? then None
    else if a.stopMethod.Structural? && e.stopReference.None? then None
    else if a.rewardRiskRatio.None? && e.targetReference.None? then None
    else
      var reference := e.entryReference.value;
      var entry := SlippedEntry(a, reference);
      var stop := StopFor(a, e, reference);
      if stop.None? then None
      else
        var target := TargetFor(a, e, reference, stop.value);
        if target.None? || !(stop.value < entry < target.value) then None
        else
          var shares := (a.positionSize / entry).Floor;
          if shares < 1 then None
          else if a.economics.Some? &&
                  !Viable(a.economics.value, entry, stop.value, target.value, shares, Slip(a), a.feePerTrade,
                          if e.feature.Some? then Some(e.feature.value.spreadAbsolute) else None) then None
          else Some(Plan(entry, stop.value, target.value, shares))
  }

  // ------------------------------------------------------------------ the first touch

  predicate Touches(bar: Candle, stop: real, target: real) { bar.low <= stop || target <= bar.high }

  /** A bar that touches both stops out: OHLC does not tell which came first. */
  function ExitAt(bar: Candle, stop: real, target: real): Exit
    requires Touches(bar, stop, target)
  {
    if bar.low <= stop then Exit(bar, if stop < bar.open then stop else bar.open, Stop)
    else Exit(bar, target, Target)
  }

  function FirstTouch(bars: seq<Candle>, stop: real, target: real): (k: nat)
    ensures k <= |bars|
    ensures forall i :: 0 <= i < k ==> !Touches(bars[i], stop, target)
    ensures k < |bars| ==> Touches(bars[k], stop, target)
  {
    if bars == [] || Touches(bars[0], stop, target) then 0 else 1 + FirstTouch(bars[1..], stop, target)
  }

  function ExitOf(bars: seq<Candle>, stop: real, target: real): Exit
    requires bars != []
  {
    var k := FirstTouch(bars, stop, target);
    if k < |bars| then ExitAt(bars[k], stop, target)
    else Exit(bars[|bars| - 1], bars[|bars| - 1].close, SessionClose)
  }

  method FindExit(future: seq<Candle>, stop: real, target: real) returns (exit: Exit)
    requires future != []
    ensures exit == ExitOf(future, stop, target)
  {
    var last := future[|future| - 1];
    exit := Exit(last, last.close, SessionClose);
    for i := 0 to |future|
      invariant forall j :: 0 <= j < i ==> !Touches(future[j], stop, target)
      invariant exit == Exit(last, last.close, SessionClose)
    {
      var value := future[i];
      if value.low <= stop {
        OnlyFirstTouch(future, stop, target, i);
        return Exit(value, if stop < value.open then stop else value.open, Stop);
      }
      if value.high >= target {
        OnlyFirstTouch(future, stop, target, i);
        return Exit(value, target, Target);
      }
    }
  }

  lemma OnlyFirstTouch(bars: seq<Candle>, stop: real, target: real, k: nat)
    requires k < |bars| && Touches(bars[k], stop, target)
    requires forall j :: 0 <= j < k ==> !Touches(bars[j], stop, target)
    ensures FirstTouch(bars, stop, target) == k
  {
    var f := FirstTouch(bars, stop, target);
    assert f < |bars| ==> Touches(bars[f], stop, target);
  }

  predicate ValidBar(bar: Candle) {
    bar.low <= bar.open <= bar.high && bar.low <= bar.close <= bar.high
  }

  /** With valid bars no exit is above the target, and one below the stop comes from a bar that
      opened below it; without a touch the session closes strictly between the two. */
  lemma ExitWithinPlan(bars: seq<Candle>, stop: real, target: real)
    requires bars != [] && stop < target && forall i :: 0 <= i < |bars| ==> ValidBar(bars[i])
    ensures var exit := ExitOf(bars, stop, target);
            && exit.raw <= target
            && (exit.raw < stop <==> exit.reason.Stop? && exit.bar.open < stop)
            && (exit.reason.SessionClose? ==> stop < exit.raw < target && exit.bar == bars[|bars| - 1])
  {
    assert ValidBar(bars[|bars| - 1]);
  }

  // ------------------------------------------------------------------ the simulation

  predicate Qualifies(a: Assumptions, e: StateEvent) { e.ready && a.scoreCutoff <= e.score }

  /** No earlier qualifying event has the identity of event `i`. */
  predicate FirstOfIdentity(a: Assumptions, events: seq<StateEvent>, i: nat)
    requires i < |events|
  {
    Qualifies(a, events[i]) &&
    forall j :: 0 <= j < i && Qualifies(a, events[j]) ==> IdentityOf(events[j]) != IdentityOf(events[i])
  }

  function TradeFor(a: Assumptions, bars: SessionBars, zone: Zone, e: StateEvent): Option<Trade>
    requires Priced(a, e)
  {
    var plan := PlanFor(a, e);
    if plan.None? then None
    else
      var future := BarsOf(bars, zone, e);
      if future == [] then None
      else
        var exit := ExitOf(future, plan.value.stop, plan.value.target);
        Some(Settle(a, e, plan.value, exit))
  }

  /** Fill at the slipped exit price; the risk of a plan is positive. */
  function Settle(a: Assumptions, e: StateEvent, plan: Plan, exit: Exit): Trade {
    var exitPrice := exit.raw * (1.0 - Slip(a));
    var gross := (exitPrice - plan.entry) * plan.shares as real;
    var net := gross - a.feePerTrade;
    var risk := (plan.entry - plan.stop) * plan.shares as real;
    Trade(IdentityOf(e), e, plan, exit, exitPrice, gross, net, if risk == 0.0 then 0.0 else net / risk)
  }

  /** Trades of the first `n` events, in event order. */
  function TradesUpTo(a: Assumptions, bars: SessionBars, zone: Zone, events: seq<StateEvent>, n: nat): seq<Trade>
    requires n <= |events| && forall i :: 0 <= i < |events| ==> Priced(a, events[i])
  {
    if n == 0 then []
    else
      var trade := if FirstOfIdentity(a, events, n - 1) then TradeFor(a, bars, zone, events[n - 1]) else None;
      TradesUpTo(a, bars, zone, events, n - 1) + (if trade.Some? then [trade.value] else [])
  }

  function EntryTime(t: Trade): int { t.event.timestamp }

  method SimulateTrades(a: Assumptions, sessions: seq<(Time, seq<Candle>)>, zone: Zone, events: seq<StateEvent>)
    returns (trades: seq<Trade>)
    requires forall i :: 0 <= i < |events| ==> Priced(a, events[i])
    ensures trades == SortByKey(TradesUpTo(a, GroupBars(sessions, zone), zone, events, |events|), EntryTime)
  {
    var bars := GroupBars(sessions, zone);
    var result: seq<Trade> := [];
    var seen: set<ReadyIdentity> := {};
    for i := 0 to |events|
      invariant seen == SeenIdentities(a, events, i)
      invariant result == TradesUpTo(a, bars, zone, events, i)
    {
      hide PlanFor, BarsOf, GroupBars, FirstOfIdentity, SeenIdentities, Settle, ExitOf, Priced;
      var event := events[i];
      SeenMeansEarlier(a, events, i);
      SeenNext(a, events, i);
      if !event.ready || event.score < a.scoreCutoff {
        continue;
      }
      var identity := IdentityOf(event);
      if identity in seen {
        continue;
      }
      seen := seen + {identity};
      var plan := PlanFor(a, event);
      if plan.None? {
        continue;
      }
      var future := BarsOf(bars, zone, event);
      if future == [] {
        continue;
      }
      var exit := FindExit(future, plan.value.stop, plan.value.target);
      result := result + [Settle(a, event, plan.value, exit)];
    }
    trades := SortByKey(result, EntryTime);
  }

  function SeenIdentities(a: Assumptions, events: seq<StateEvent>, n: nat): set<ReadyIdentity>
    requires n <= |events|
  {
    set i | 0 <= i < n && Qualifies(a, events[i]) :: IdentityOf(events[i])
  }

  lemma SeenMeansEarlier(a: Assumptions, events: seq<StateEvent>, i: nat)
    requires i < |events|
    ensures FirstOfIdentity(a, events, i) <==>
            Qualifies(a, events[i]) && IdentityOf(events[i]) !in SeenIdentities(a, events, i)
  {
  }

  lemma SeenNext(a: Assumptions, events: seq<StateEvent>, i: nat)
    requires i < |events|
    ensures SeenIdentities(a, events, i + 1) ==
            SeenIdentities(a, events, i) + (if Qualifies(a, events[i]) then {IdentityOf(events[i])} else {})
  {
  }

  // ------------------------------------------------------------------ what the trades are

  /** `len({_ready_identity(value) for value in events if value.state == "READY"})`. */
  function ReadyIdentities(events: seq<StateEvent>, n: nat): set<ReadyIdentity>
    requires n <= |events|
  {
    set i | 0 <= i < n && events[i].ready :: IdentityOf(events[i])
  }

  function TradedIdentities(trades: seq<Trade>): set<ReadyIdentity> {
    set i | 0 <= i < |trades| :: trades[i].identity
  }

  /** Every trade has an identity of its own among the first `n` qualifying events. */
  lemma {:induction false} TradesHaveOwnIdentities(
      a: Assumptions, bars: SessionBars, zone: Zone, events: seq<StateEvent>, n: nat)
    requires n <= |events| && forall i :: 0 <= i < |events| ==> Priced(a, events[i])
    ensures var trades := TradesUpTo(a, bars, zone, events, n);
            |TradedIdentities(trades)| == |trades| && TradedIdentities(trades) <= SeenIdentities(a, events, n)
  {
    hide TradeFor, FirstOfIdentity, Priced, Qualifies, IdentityOf, TradedIdentities, SeenIdentities;
    if n == 0 {
      assert TradedIdentities([]) == {} by { NobodyTraded(); }
    } else {
      TradesHaveOwnIdentities(a, bars, zone, events, n - 1);
      SeenMeansEarlier(a, events, n - 1);
      SeenNext(a, events, n - 1);
      var before := TradesUpTo(a, bars, zone, events, n - 1);
      if FirstOfIdentity(a, events, n - 1) && TradeFor(a, bars, zone, events[n - 1]).Some? {
        OneMoreIdentity(before, TradeFor(a, bars, zone, events[n - 1]).value);
        TradeHasIdentity(a, bars, zone, events[n - 1]);
      } else {
        assert TradesUpTo(a, bars, zone, events, n) == before;
      }
    }
  }

  lemma NobodyTraded()
    ensures TradedIdentities([]) == {}
  {
  }

  lemma TradeHasIdentity(a: Assumptions, bars: SessionBars, zone: Zone, e: StateEvent)
    requires Priced(a, e) && TradeFor(a, bars, zone, e).Some?
    ensures TradeFor(a, bars, zone, e).value.identity == IdentityOf(e)
  {
    hide PlanFor, BarsOf, ExitOf, Priced;
  }

  lemma OneMoreIdentity(trades: seq<Trade>, t: Trade)
    ensures TradedIdentities(trades + [t]) == TradedIdentities(trades) + {t.identity}
  {
    var all := trades + [t];
    forall id | id in TradedIdentities(trades) ensures id in TradedIdentities(all) {
      var i :| 0 <= i < |trades| && trades[i].identity == id;
      assert all[i].identity == id;
    }
    assert all[|trades|].identity == t.identity;
  }

  lemma SubsetSize(s: set<ReadyIdentity>, t: set<ReadyIdentity>)
    requires s <= t
    ensures |s| <= |t|
  {
    assert t == s + (t - s);
  }

  /** There are no more trades than distinct ready identities: conversion cannot exceed 100 percent. */
  lemma TradesWithinReadySetups(a: Assumptions, bars: SessionBars, zone: Zone, events: seq<StateEvent>)
    requires forall i :: 0 <= i < |events| ==> Priced(a, events[i])
    ensures |TradesUpTo(a, bars, zone, events, |events|)| <= |ReadyIdentities(events, |events|)|
  {
    hide TradesUpTo, Priced;
    TradesHaveOwnIdentities(a, bars, zone, events, |events|);
    SubsetSize(TradedIdentities(TradesUpTo(a, bars, zone, events, |events|)), SeenIdentities(a, events, |events|));
    SubsetSize(SeenIdentities(a, events, |events|), ReadyIdentities(events, |events|));
  }

  /** Where a trade comes from: the first qualifying event of its identity, with the exit found in the
      bars of its instrument that start at or after the signal. */
  ghost predicate Originates(a: Assumptions, bars: SessionBars, zone: Zone, events: seq<StateEvent>, t: Trade, i: nat)
    requires i < |events|
  {
    && FirstOfIdentity(a, events, i) && t.event == events[i] && t.identity == IdentityOf(events[i])
    && 0.0 < t.plan.entry - t.plan.stop && t.plan.entry < t.plan.target && t.plan.shares >= 1
    && BarsOf(bars, zone, events[i]) != []
    && t.exit == ExitOf(BarsOf(bars, zone, events[i]), t.plan.stop, t.plan.target)
    && t.net == SimulatedNet(t.plan.entry, t.exit.raw, t.plan.shares, Slip(a), a.feePerTrade)
    && (GatedTarget(a, t) ==> t.net > 0.0)
  }

  /** A target exit that went through a gate whose target multiple makes up for the slippage. */
  predicate GatedTarget(a: Assumptions, t: Trade) {
    && a.economics.Some? && t.exit.reason.Target?
    && 0.0 < t.plan.stop && 0.0 <= a.feePerTrade && 0.0 <= Slip(a) < 1.0
    && (t.event.feature.Some? ==> 0.0 <= t.event.feature.value.spreadAbsolute)
    && a.economics.value.minTargetFrictionMultiple * (1.0 - Slip(a)) >= 1.0
  }

  lemma PlanPassedGate(a: Assumptions, e: StateEvent, plan: Plan)
    requires Priced(a, e) && PlanFor(a, e) == Some(plan)
    ensures plan.stop < plan.entry < plan.target && plan.shares >= 1 && plan.entry != 0.0
    ensures a.economics.Some? ==>
      Viable(a.economics.value, plan.entry, plan.stop, plan.target, plan.shares, Slip(a), a.feePerTrade,
             if e.feature.Some? then Some(e.feature.value.spreadAbsolute) else None)
  {
    hide Viable, Slip, StopFor, TargetFor, SlippedEntry;
  }

  lemma GatedTargetPays(a: Assumptions, e: StateEvent, plan: Plan, exit: Exit)
    requires Priced(a, e) && PlanFor(a, e) == Some(plan) && GatedTarget(a, Settle(a, e, plan, exit))
    requires exit.raw == plan.target
    ensures Settle(a, e, plan, exit).net > 0.0
  {
    PlanPassedGate(a, e, plan);
    hide PlanFor, Viable, Slip;
    ViableTradePaysAtTarget(
      a.economics.value, plan.entry, plan.stop, plan.target, plan.shares, Slip(a), a.feePerTrade,
      if e.feature.Some? then Some(e.feature.value.spreadAbsolute) else None);
  }

  lemma TradeOriginates(a: Assumptions, bars: SessionBars, zone: Zone, events: seq<StateEvent>, i: nat)
    requires i < |events| && Priced(a, events[i]) && FirstOfIdentity(a, events, i)
    requires TradeFor(a, bars, zone, events[i]).Some?
    ensures Originates(a, bars, zone, events, TradeFor(a, bars, zone, events[i]).value, i)
  {
    hide BarsOf, FirstOfIdentity, Slip, ExitOf, PlanFor, GatedTarget, Settle, SimulatedNet, IdentityOf;
    var e, t := events[i], TradeFor(a, bars, zone, events[i]).value;
    PlanIsSound(a, e);
    var plan := PlanFor(a, e).value;
    SettledFromPlan(a, e, plan, ExitOf(BarsOf(bars, zone, e), plan.stop, plan.target));
    if GatedTarget(a, t) {
      assert t.exit.reason.Target? by { GatedReason(a, t); }
      TargetIsMet(BarsOf(bars, zone, e), plan.stop, plan.target);
      GatedTargetPays(a, e, t.plan, t.exit);
    }
  }

  lemma SettledFromPlan(a: Assumptions, e: StateEvent, plan: Plan, exit: Exit)
    ensures var t := Settle(a, e, plan, exit);
            && t.identity == IdentityOf(e) && t.event == e && t.plan == plan && t.exit == exit
            && t.net == SimulatedNet(plan.entry, exit.raw, plan.shares, Slip(a), a.feePerTrade)
  {
    hide IdentityOf, Slip;
  }

  lemma TargetIsMet(bars: seq<Candle>, stop: real, target: real)
    requires bars != [] && ExitOf(bars, stop, target).reason.Target?
    ensures ExitOf(bars, stop, target).raw == target
  {
  }

  lemma GatedReason(a: Assumptions, t: Trade)
    requires GatedTarget(a, t)
    ensures t.exit.reason.Target?
  {
  }

  lemma PlanIsSound(a: Assumptions, e: StateEvent)
    requires Priced(a, e) && PlanFor(a, e).Some?
    ensures var plan := PlanFor(a, e).value; plan.stop < plan.entry < plan.target && plan.shares >= 1
  {
    hide Viable, Slip;
  }

  lemma {:induction false} EveryTradeOriginates(
      a: Assumptions, bars: SessionBars, zone: Zone, events: seq<StateEvent>, n: nat, k: nat)
    requires n <= |events| && forall i :: 0 <= i < |events| ==> Priced(a, events[i])
    requires k < |TradesUpTo(a, bars, zone, events, n)|
    ensures exists i :: 0 <= i < n && Originates(a, bars, zone, events, TradesUpTo(a, bars, zone, events, n)[k], i)
  {
    hide TradeFor, Originates, FirstOfIdentity, Priced;
    if k < |TradesUpTo(a, bars, zone, events, n - 1)| {
      EveryTradeOriginates(a, bars, zone, events, n - 1, k);
      var i :| 0 <= i < n - 1 && Originates(a, bars, zone, events, TradesUpTo(a, bars, zone, events, n - 1)[k], i);
      assert Originates(a, bars, zone, events, TradesUpTo(a, bars, zone, events, n)[k], i);
    } else {
      TradeOriginates(a, bars, zone, events, n - 1);
      assert Originates(a, bars, zone, events, TradesUpTo(a, bars, zone, events, n)[k], n - 1);
    }
  }

  /** The simulation returns exactly these trades, ordered by entry time. */
  lemma SimulatedTradesOriginate(
      a: Assumptions, bars: SessionBars, zone: Zone, events: seq<StateEvent>, t: Trade)
    requires forall i :: 0 <= i < |events| ==> Priced(a, events[i])
    requires t in SortByKey(TradesUpTo(a, bars, zone, events, |events|), EntryTime)
    ensures exists i :: 0 <= i < |events| && Originates(a, bars, zone, events, t, i)
    ensures Ascending(SortByKey(TradesUpTo(a, bars, zone, events, |events|), EntryTime), EntryTime)
  {
    hide TradesUpTo, Originates, Priced;
    var trades := TradesUpTo(a, bars, zone, events, |events|);
    SortByKeySorts(trades, EntryTime);
    var k :| 0 <= k < |trades| && trades[k] == t;
    EveryTradeOriginates(a, bars, zone, events, |events|, k);
  }

  // ------------------------------------------------------------------ the bars of the exit

  lemma InstrumentBarsAscend(candles: seq<Candle>, id: InstrumentId)
    ensures Ascending(InstrumentBars(candles, id), StartOf)
    ensures forall c :: c in InstrumentBars(candles, id) <==> c in candles && c.id == id
  {
    SortByKeySorts(Filter(candles, (c: Candle) => c.id == id), StartOf);
  }

  ghost predicate OrderedBars(bars: SessionBars) {
    forall key :: key in bars ==> Ascending(bars[key], StartOf) && forall c: Candle :: c in bars[key] ==> c.id == key.1
  }

  lemma {:induction false} GroupedBarsOrdered(sessions: seq<(Time, seq<Candle>)>, zone: Zone)
    ensures OrderedBars(GroupBars(sessions, zone))
  {
    hide LocalDate, InstrumentBars;
    if sessions != [] {
      var n := |sessions| - 1;
      GroupedBarsOrdered(sessions[..n], zone);
      var bars := GroupBars(sessions, zone);
      forall key | key in bars
        ensures Ascending(bars[key], StartOf) && forall c: Candle :: c in bars[key] ==> c.id == key.1 {
        InstrumentBarsAscend(sessions[n].1, key.1);
      }
    }
  }

  lemma {:induction false} StartingFromAscends(cs: seq<Candle>, t: Time)
    requires Ascending(cs, StartOf)
    ensures Ascending(StartingFrom(cs, t), StartOf)
  {
    if cs != [] {
      StartingFromAscends(cs[1..], t);
      var rest := StartingFrom(cs[1..], t);
      assert StartingFrom(cs, t) == if t <= cs[0].start then [cs[0]] + rest else rest;
      forall j | 0 <= j < |rest| ensures StartOf(cs[0]) <= StartOf(rest[j]) {
        assert rest[j] in cs[1..];
      }
    }
  }

  /** The exit bar is of the instrument, starts at or after the signal, and no bar of that kind that
      touches stop or target starts earlier; without a touch it is the last one. */
  lemma ExitIsEarliest(sessions: seq<(Time, seq<Candle>)>, zone: Zone, e: StateEvent, stop: real, target: real)
    requires BarsOf(GroupBars(sessions, zone), zone, e) != []
    ensures var future := BarsOf(GroupBars(sessions, zone), zone, e);
            var exit := ExitOf(future, stop, target);
            && exit.bar in future && exit.bar.id == e.instrument && e.timestamp <= exit.bar.start
            && (exit.reason.SessionClose? ==>
                  forall c :: c in future ==> !Touches(c, stop, target) && c.start <= exit.bar.start)
            && (!exit.reason.SessionClose? ==>
                  Touches(exit.bar, stop, target) && (exit.reason.Stop? <==> exit.bar.low <= stop) &&
                  forall c :: c in future && Touches(c, stop, target) ==> exit.bar.start <= c.start)
  {
    hide GroupBars, LocalDate;
    var bars := GroupBars(sessions, zone);
    GroupedBarsOrdered(sessions, zone);
    var key := (LocalDate(zone, e.timestamp), e.instrument);
    var future := BarsOf(bars, zone, e);
    if key in bars {
      assert Ascending(bars[key], StartOf) && forall c: Candle :: c in bars[key] ==> c.id == key.1;
      StartingFromAscends(bars[key], e.timestamp);
    }
    assert Ascending(future, StartOf);
    assert forall c :: c in future ==> c.id == e.instrument && e.timestamp <= c.start;
    EarliestTouch(future, stop, target);
  }

  lemma EarliestTouch(future: seq<Candle>, stop: real, target: real)
    requires future != [] && Ascending(future, StartOf)
    ensures var exit := ExitOf(future, stop, target);
            && exit.bar in future
            && (exit.reason.SessionClose? ==>
                  forall c :: c in future ==> !Touches(c, stop, target) && c.start <= exit.bar.start)
            && (!exit.reason.SessionClose? ==>
                  Touches(exit.bar, stop, target) && (exit.reason.Stop? <==> exit.bar.low <= stop) &&
                  forall c :: c in future && Touches(c, stop, target) ==> exit.bar.start <= c.start)
  {
    var exit, k := ExitOf(future, stop, target), FirstTouch(future, stop, target);
    forall i | 0 <= i < |future| && (k == |future| || Touches(future[i], stop, target))
      ensures if k == |future| then StartOf(future[i]) <= StartOf(exit.bar)
              else StartOf(exit.bar) <= StartOf(future[i]) {
      if k == |future| {
        assert i == |future| - 1 || StartOf(future[i]) <= StartOf(future[|future| - 1]);
      } else {
        assert k <= i;
        assert k == i || StartOf(future[k]) <= StartOf(future[i]);
      }
    }
  }
}
