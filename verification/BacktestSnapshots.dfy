/** What the snapshots of a replay are computed from (services/scanner/app/backtest.py:141-165): the merged calls,
    fed to the feature engine with context requests between them. */
module BacktestSnapshots {
  import opened Lists
  import opened Candles
  import opened FeatureState
  import opened FeatureMinutes
  import opened FeatureReference
  import opened FeatureCaches
  import opened FeatureRuns
  import opened BacktestReplay

  function OpOf(call: EngineCall): Op {
    match call
    case IngestCandles(batch) => OpCandles(batch)
    case IngestQuotes(_, group) => OpQuotes(group, false)
  }

  /** A session is started in a new engine, which then gets the merged calls. */
  function Replayed(s: Session, calls: seq<EngineCall>): seq<Op> { [OpStart(s)] + Map(calls, OpOf) }

  predicate Feeds(op: Op) { !op.OpContext? }

  lemma ReplayedSnoc(s: Session, calls: seq<EngineCall>, call: EngineCall)
    ensures Replayed(s, calls + [call]) == Replayed(s, calls) + [OpOf(call)]
  {
  }

  // ------------------------------------------------------------------ what the engine knows

  /** All that a calculation depends on. */
  ghost predicate SameKnowledge(r: Reference, q: Reference) {
    && r.session == q.session && r.instruments == q.instruments && r.candidates == q.candidates
    && r.candles == q.candles && r.completed == q.completed
  }

  lemma SameCalculations(r: Reference, q: Reference, s: Session, quote: Quote)
    requires SameKnowledge(r, q)
    ensures FullCalculation(r, s, quote) == FullCalculation(q, s, quote)
    ensures BenchmarkCalculation(r, s, quote) == BenchmarkCalculation(q, s, quote)
  {
    hide Derive, Sorted, Dates, Dated, LastCompletedClose;
    assert PastSessions(r, quote.id) == PastSessions(q, quote.id);
  }

  /** The state after the session's start and one batch of candles. */
  ghost function Knowing(s: Session, known: seq<Candle>): Reference { EnterAll(Start(BLANK, s).0, s, known).0 }

  lemma {:induction false} EnterAllAlike(r: Reference, q: Reference, s: Session, batch: seq<Candle>)
    requires SameKnowledge(r, q)
    ensures SameKnowledge(EnterAll(r, s, batch).0, EnterAll(q, s, batch).0)
    ensures EnterAll(r, s, batch).1 == EnterAll(q, s, batch).1
    ensures EnterAll(r, s, batch).0.instruments == r.instruments
    decreases |batch|
  {
    hide CandleError, Historical;
    if batch != [] && CandleError(r.instruments, batch[0]).None? {
      EnterAllAlike(Enter(r, s, batch[0]), Enter(q, s, batch[0]), s, batch[1..]);
    }
  }

  /** Entering two accepted batches is entering both as one. */
  lemma {:induction false} EnterAllConcat(r: Reference, s: Session, a: seq<Candle>, b: seq<Candle>)
    requires forall c :: c in a ==> CandleError(r.instruments, c).None?
    ensures EnterAll(r, s, a).1.None? && EnterAll(r, s, a).0.instruments == r.instruments
    ensures EnterAll(r, s, a + b) == EnterAll(EnterAll(r, s, a).0, s, b)
    decreases |a|
  {
    hide CandleError, Historical;
    if a == [] {
      assert a + b == b;
    } else {
      assert (a + b)[0] == a[0] && (a + b)[1..] == a[1..] + b;
      EnterAllConcat(Enter(r, s, a[0]), s, a[1..], b);
    }
  }

  lemma {:induction false} QuotesAddNoKnowledge(r: Reference, s: Session, quotes: seq<Quote>, benchmarks: bool)
    ensures SameKnowledge(TakeAll(r, s, quotes, benchmarks).reference, r)
    decreases |quotes|
  {
    hide FullCalculation, BenchmarkCalculation;
    if quotes != [] && Known(r.instruments, quotes[0].id, quotes[0].symbol) {
      var q := quotes[0];
      if !InvalidQuoteValues(q) {
        QuotesAddNoKnowledge(Take(r, s, q, benchmarks || q.id in r.candidates), s, quotes[1..], benchmarks);
      } else if r.instruments[q.id].role.Benchmark? {
        QuotesAddNoKnowledge(Lose(r, q.id), s, quotes[1..], benchmarks);
      }
    }
  }

  ghost predicate Regular(s: Session) {
    AlignedSession(s) && s.start < s.end && MarketBenchmarks(s.instruments) <= 1
  }

  ghost predicate AllAccepted(s: Session, cs: seq<Candle>) {
    forall c :: c in cs ==> CandleError(InstrumentMap(s.instruments), c).None?
  }

  /** After some of the calls the engine knows what they delivered, as if it had come in one batch. */
  lemma {:induction false} KnowsDelivered(s: Session, calls: seq<EngineCall>)
    requires Regular(s) && AllAccepted(s, Delivered(calls))
    ensures SameKnowledge(Consult(BLANK, Replayed(s, calls)).reference, Knowing(s, Delivered(calls)))
    ensures Consult(BLANK, Replayed(s, calls)).reference.session == Some(s)
    decreases |calls|
  {
    hide Respond, Regular, SameKnowledge, CandleError, Delivered, Knowing, Consult, Replayed;
    if calls == [] {
      NothingDelivered(s);
    } else {
      var before, last := calls[..|calls| - 1], calls[|calls| - 1];
      assert calls == before + [last];
      CallSnoc(before, last);
      KnowsDelivered(s, before);
      ReplayedSnoc(s, before, last);
      ConsultSnoc(Replayed(s, before), OpOf(last));
      var r := Consult(BLANK, Replayed(s, before)).reference;
      if last.IngestCandles? {
        KnowsMore(s, r, Delivered(before), last.batch);
      } else {
        KnowsNoMore(s, r, Delivered(before), last.group);
        assert Delivered(calls) == Delivered(before);
      }
    }
  }

  lemma ConsultSnoc(ops: seq<Op>, op: Op)
    ensures Consult(BLANK, ops + [op]).reference == Respond(Consult(BLANK, ops).reference, op).reference
  {
    hide Respond;
    assert (ops + [op])[..|ops|] == ops;
  }

  lemma NothingDelivered(s: Session)
    requires Regular(s)
    ensures Delivered([]) == [] && Replayed(s, []) == [OpStart(s)]
    ensures SameKnowledge(Consult(BLANK, [OpStart(s)]).reference, Knowing(s, []))
    ensures Consult(BLANK, [OpStart(s)]).reference.session == Some(s)
  {
    hide InstrumentMap, CandidateIds, MarketBenchmarks, AlignedSession;
    assert [OpStart(s)][..0] == [];
    assert Consult(BLANK, []) == Answers(BLANK, []);
  }

  lemma KnowsMore(s: Session, r: Reference, known: seq<Candle>, batch: seq<Candle>)
    requires Regular(s) && AllAccepted(s, known + batch)
    requires SameKnowledge(r, Knowing(s, known)) && r.session == Some(s)
    ensures SameKnowledge(Respond(r, OpCandles(batch)).reference, Knowing(s, known + batch))
    ensures Respond(r, OpCandles(batch)).reference.session == Some(s)
  {
    hide InstrumentMap, CandidateIds, MarketBenchmarks, AlignedSession, CandleError, Recalculated, EnterAll;
    var begun := Start(BLANK, s).0;
    assert forall c :: c in known ==> c in known + batch;
    EnterAllConcat(begun, s, known, batch);
    EnterAllAlike(r, Knowing(s, known), s, batch);
    SessionKept(r, s, batch);
  }

  lemma {:induction false} SessionKept(r: Reference, s: Session, batch: seq<Candle>)
    ensures EnterAll(r, s, batch).0.session == r.session
    decreases |batch|
  {
    hide CandleError, Historical;
    if batch != [] && CandleError(r.instruments, batch[0]).None? {
      SessionKept(Enter(r, s, batch[0]), s, batch[1..]);
    }
  }

  lemma KnowsNoMore(s: Session, r: Reference, known: seq<Candle>, group: seq<Quote>)
    requires SameKnowledge(r, Knowing(s, known)) && r.session == Some(s)
    ensures SameKnowledge(Respond(r, OpQuotes(group, false)).reference, Knowing(s, known))
    ensures Respond(r, OpQuotes(group, false)).reference.session == Some(s)
  {
    hide Knowing, TakeAll;
    QuotesAddNoKnowledge(r, s, group, false);
  }

  /** Context requests leave everything that is calculated from alone. */
  lemma {:induction false} ContextsDoNotCount(ops: seq<Op>)
    ensures Consult(BLANK, ops).reference == Consult(BLANK, Filter(ops, Feeds)).reference
    decreases |ops|
  {
    hide Filter, FullContext, Start, EnterBatch, TakeAll, Leave, Join;
    if ops == [] {
      FilterNone(ops, Feeds);
    } else {
      var n := |ops| - 1;
      ContextsDoNotCount(ops[..n]);
      FilterConcat(ops[..n], [ops[n]], Feeds);
      assert ops == ops[..n] + [ops[n]];
      OneFiltered(ops[n]);
      var fed := Filter(ops[..n], Feeds);
      if Feeds(ops[n]) {
        assert (fed + [ops[n]])[..|fed|] == fed;
      } else {
        assert Filter(ops, Feeds) == fed;
      }
    }
  }

  lemma OneFiltered(op: Op)
    ensures Filter([op], Feeds) == if Feeds(op) then [op] else []
  {
    assert [op][1..] == [];
  }

  // ------------------------------------------------------------------ what a snapshot is computed from

  /** The snapshot is the calculation on its quote from these candles: the full one of a candidate, the
      benchmark-only one of another instrument. */
  ghost predicate Calculated(s: Session, known: seq<Candle>, snapshot: Snapshot) {
    snapshot == if snapshot.quote.id in CandidateIds(s.instruments)
                then FullCalculation(Knowing(s, known), s, snapshot.quote)
                else BenchmarkCalculation(Knowing(s, known), s, snapshot.quote)
  }

  ghost function CalculationOf(r: Reference, s: Session, q: Quote): Snapshot {
    if q.id in r.candidates then FullCalculation(r, s, q) else BenchmarkCalculation(r, s, q)
  }

  lemma {:induction false} TakenAsCalculated(r: Reference, s: Session, quotes: seq<Quote>)
    ensures var taken := TakeAll(r, s, quotes, false);
            taken.error.None? ==> forall snapshot :: snapshot in taken.snapshots ==>
              snapshot.quote in quotes && snapshot == CalculationOf(r, s, snapshot.quote)
    decreases |quotes|
  {
    hide FullFeatures, Series, LastCompletedClose;
    if quotes != [] && Known(r.instruments, quotes[0].id, quotes[0].symbol) {
      var q := quotes[0];
      if !InvalidQuoteValues(q) {
        var next := Take(r, s, q, q.id in r.candidates);
        TakenAsCalculated(next, s, quotes[1..]);
        TakenOneAsCalculated(r, s, q);
        forall quote ensures CalculationOf(next, s, quote) == CalculationOf(r, s, quote) {
          SameCalculations(next, r, s, quote);
        }
      } else if r.instruments[q.id].role.Benchmark? {
        var next := Lose(r, q.id);
        TakenAsCalculated(next, s, quotes[1..]);
        forall quote ensures CalculationOf(next, s, quote) == CalculationOf(r, s, quote) {
          SameCalculations(next, r, s, quote);
        }
      }
    }
  }

  lemma TakenOneAsCalculated(r: Reference, s: Session, q: Quote)
    ensures Take(r, s, q, q.id in r.candidates).snapshots[q.id] == CalculationOf(r, s, q)
    ensures CalculationOf(r, s, q).quote == q
  {
    hide FullFeatures, Series, LastCompletedClose;
    SameCalculations(TakenBy(r, q), r, s, q);
  }

  lemma KnowingCandidates(s: Session, known: seq<Candle>)
    requires Regular(s)
    ensures Knowing(s, known).candidates == CandidateIds(s.instruments)
  {
    hide InstrumentMap, CandidateIds, MarketBenchmarks, AlignedSession;
    CandidatesKept(Start(BLANK, s).0, s, known);
  }

  lemma {:induction false} CandidatesKept(r: Reference, s: Session, batch: seq<Candle>)
    ensures EnterAll(r, s, batch).0.candidates == r.candidates
    decreases |batch|
  {
    hide CandleError, Historical;
    if batch != [] && CandleError(r.instruments, batch[0]).None? {
      CandidatesKept(Enter(r, s, batch[0]), s, batch[1..]);
    }
  }

  // ------------------------------------------------------------------ the replay

  lemma {:induction false} BatchDelivered(calls: seq<EngineCall>, j: nat, c: Candle)
    requires j < |calls| && calls[j].IngestCandles? && c in calls[j].batch
    ensures c in Delivered(calls)
    decreases |calls|
  {
    if j < |calls| - 1 {
      BatchDelivered(calls[..|calls| - 1], j, c);
    }
  }

  lemma EndedByIsOfSession(candles: seq<Candle>, t: int, c: Candle)
    requires c in EndedBy(CompleteByEnd(candles), t)
    ensures c in candles && c.complete
  {
    assert c in CompleteByEnd(candles);
    SortByKeySorts(Complete(candles), EndOf);
    assert c in multiset(CompleteByEnd(candles));
    assert c in Complete(candles);
  }

  lemma ReplayIsGood(s: Session, calls: seq<EngineCall>, ops: seq<Op>)
    requires Regular(s) && AlignedCandles(Delivered(calls)) && Filter(ops, Feeds) == Replayed(s, calls)
    ensures GoodSince(ops, 0)
  {
    hide AlignedSession, MarketBenchmarks, Filter, Delivered, AlignedCandle;
    forall i | 0 <= i < |ops| ensures AlignedOp(ops[i]) && CleanOp(ops[i]) {
      if Feeds(ops[i]) {
        assert ops[i] in ops;
        assert ops[i] in Filter(ops, Feeds);
        var n :| 0 <= n < |Replayed(s, calls)| && Replayed(s, calls)[n] == ops[i];
        if n > 0 && calls[n - 1].IngestCandles? {
          var batch := calls[n - 1].batch;
          forall c | c in batch ensures AlignedCandle(c) {
            BatchDelivered(calls, n - 1, c);
          }
          assert forall m :: 0 <= m < |batch| ==> batch[m] in batch;
        }
      }
    }
  }

  /** Every snapshot a replay gets is the calculation, on its quote of that instant, from the session's complete
      candles ended by then and nothing else, however they were batched and whatever was requested in between. */
  lemma ReplaySeesNoFuture(s: Session, candles: seq<Candle>, calls: seq<EngineCall>, k: nat, ops: seq<Op>)
    requires Regular(s) && AlignedCandles(candles) && AllAccepted(s, Complete(candles))
    requires NoLookAhead(calls, CompleteByEnd(candles)) && k < |calls| && calls[k].IngestQuotes?
    requires Filter(ops, Feeds) == Replayed(s, calls[..k])
    ensures var answer := Step(Execute(EMPTY, ops).engine, OpOf(calls[k])).outcome;
            answer.Snapshots? ==> forall snapshot :: snapshot in answer.snapshots ==>
              && snapshot.quote in calls[k].group && snapshot.quote.timestamp == calls[k].at
              && Calculated(s, EndedBy(CompleteByEnd(candles), calls[k].at), snapshot)
  {
    hide AlignedSession, MarketBenchmarks, Filter, Delivered, AlignedCandle, CandleError, Step, Respond, Knowing,
         TakeAll, Execute, Consult, FullCalculation, BenchmarkCalculation, CompleteByEnd, EndedBy, Complete, Agrees,
         QuotesKeyed, InstrumentMap, CandidateIds;
    var known := EndedBy(CompleteByEnd(candles), calls[k].at);
    assert Delivered(calls[..k]) == known;
    KnownAccepted(s, candles, calls[k].at);
    ReplayIsGood(s, calls[..k], ops);
    RunAgreesSince(ops, 0);
    var r := Consult(BLANK, ops).reference;
    StepAgrees(Execute(EMPTY, ops).engine, r, OpOf(calls[k]));
    ContextsDoNotCount(ops);
    KnowsDelivered(s, calls[..k]);
    KnowingCandidates(s, known);
    QuotesAnswered(r, s, known, calls[k].group);
    forall q | q in calls[k].group ensures q.timestamp == calls[k].at {
    }
  }

  lemma KnownAccepted(s: Session, candles: seq<Candle>, t: int)
    requires AlignedCandles(candles) && AllAccepted(s, Complete(candles))
    ensures AlignedCandles(EndedBy(CompleteByEnd(candles), t)) && AllAccepted(s, EndedBy(CompleteByEnd(candles), t))
  {
    hide CompleteByEnd, EndedBy, CandleError, InstrumentMap, AlignedCandle;
    forall c | c in EndedBy(CompleteByEnd(candles), t)
      ensures AlignedCandle(c) && CandleError(InstrumentMap(s.instruments), c).None? {
      EndedByIsOfSession(candles, t, c);
      assert c in Complete(candles);
    }
  }

  lemma QuotesAnswered(r: Reference, s: Session, known: seq<Candle>, group: seq<Quote>)
    requires SameKnowledge(r, Knowing(s, known)) && r.session == Some(s)
    requires Knowing(s, known).candidates == CandidateIds(s.instruments)
    ensures var answer := Respond(r, OpQuotes(group, false)).outcome;
            answer.Snapshots? ==> forall snapshot :: snapshot in answer.snapshots ==>
              snapshot.quote in group && Calculated(s, known, snapshot)
  {
    hide Knowing, TakeAll, FullCalculation, BenchmarkCalculation, CandidateIds;
    TakenAsCalculated(r, s, group);
    forall quote ensures CalculationOf(r, s, quote) == CalculationOf(Knowing(s, known), s, quote) {
      SameCalculations(r, Knowing(s, known), s, quote);
    }
  }
}
