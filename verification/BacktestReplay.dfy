/** The merge of candles and quotes that feeds the engine during a replay
    (services/scanner/app/backtest.py:141-160). */
module BacktestReplay {
  import opened Lists
  import opened Clock
  import opened Candles
  import opened FeatureState

  /** What the merge asks of the feature engine. */
  datatype EngineCall =
    | IngestCandles(batch: seq<Candle>)
    | IngestQuotes(at: Time, group: seq<Quote>)

  function Delivered(calls: seq<EngineCall>): seq<Candle> {
    if calls == [] then []
    else
      var last := calls[|calls| - 1];
      Delivered(calls[..|calls| - 1]) + (if last.IngestCandles? then last.batch else [])
  }

  function Quoted(calls: seq<EngineCall>): seq<Quote> {
    if calls == [] then []
    else
      var last := calls[|calls| - 1];
      Quoted(calls[..|calls| - 1]) + (if last.IngestQuotes? then last.group else [])
  }

  lemma CallSnoc(calls: seq<EngineCall>, call: EngineCall)
    ensures Delivered(calls + [call]) == Delivered(calls) + (if call.IngestCandles? then call.batch else [])
    ensures Quoted(calls + [call]) == Quoted(calls) + (if call.IngestQuotes? then call.group else [])
  {
    assert (calls + [call])[..|calls|] == calls;
  }

  function EndOf(c: Candle): int { c.end }
  function TimeOf(q: Quote): int { q.timestamp }

  function CompleteByEnd(candles: seq<Candle>): seq<Candle> { SortByKey(Complete(candles), EndOf) }

  function QuotesByTime(quotes: seq<Quote>): seq<Quote> { SortByKey(quotes, TimeOf) }

  /** Every group is one instant's quotes, and by then exactly the candles that had ended are known. */
  ghost predicate NoLookAhead(calls: seq<EngineCall>, known: seq<Candle>) {
    forall k :: 0 <= k < |calls| && calls[k].IngestQuotes? ==>
      && calls[k].group != []
      && (forall i :: 0 <= i < |calls[k].group| ==> calls[k].group[i].timestamp == calls[k].at)
      && Delivered(calls[..k]) == EndedBy(known, calls[k].at)
  }

  ghost predicate TimesIncrease(calls: seq<EngineCall>) {
    forall j, k :: 0 <= j < k < |calls| && calls[j].IngestQuotes? && calls[k].IngestQuotes? ==>
      calls[j].at < calls[k].at
  }

  ghost predicate TimesBelow(calls: seq<EngineCall>, t: Time) {
    forall k :: 0 <= k < |calls| && calls[k].IngestQuotes? ==> calls[k].at < t
  }

  ghost predicate BatchesNonEmpty(calls: seq<EngineCall>) {
    forall k :: 0 <= k < |calls| && calls[k].IngestCandles? ==> calls[k].batch != []
  }

  lemma PrefixEndedBy(known: seq<Candle>, cursor: nat, t: Time)
    requires cursor <= |known|
    requires forall i :: 0 <= i < cursor ==> known[i].end <= t
    requires forall i :: cursor <= i < |known| ==> t < known[i].end
    ensures EndedBy(known, t) == known[..cursor]
  {
    FilterPrefix(known, cursor, (c: Candle) => c.end <= t);
    FilterAll(known[..cursor], (c: Candle) => c.end <= t);
  }

  lemma AppendCandles(calls: seq<EngineCall>, batch: seq<Candle>, known: seq<Candle>)
    requires NoLookAhead(calls, known) && TimesIncrease(calls) && BatchesNonEmpty(calls) && batch != []
    ensures var after := calls + [IngestCandles(batch)];
            NoLookAhead(after, known) && TimesIncrease(after) && BatchesNonEmpty(after)
    ensures forall t :: TimesBelow(calls, t) ==> TimesBelow(calls + [IngestCandles(batch)], t)
  {
    var after := calls + [IngestCandles(batch)];
    forall k | 0 <= k < |calls| ensures after[..k] == calls[..k] && after[k] == calls[k] {
    }
  }

  lemma AppendQuotes(calls: seq<EngineCall>, t: Time, group: seq<Quote>, known: seq<Candle>)
    requires NoLookAhead(calls, known) && TimesIncrease(calls) && BatchesNonEmpty(calls)
    requires TimesBelow(calls, t) && group != []
    requires forall i :: 0 <= i < |group| ==> group[i].timestamp == t
    requires Delivered(calls) == EndedBy(known, t)
    ensures var after := calls + [IngestQuotes(t, group)];
            NoLookAhead(after, known) && TimesIncrease(after) && BatchesNonEmpty(after)
    ensures forall u :: t < u ==> TimesBelow(calls + [IngestQuotes(t, group)], u)
  {
    hide Delivered, EndedBy;
    var after := calls + [IngestQuotes(t, group)];
    forall k | 0 <= k < |calls| ensures after[..k] == calls[..k] && after[k] == calls[k] {
    }
    assert after[..|calls|] == calls;
  }

  /** `itertools.groupby`: the run of quotes that share the instant of the first. */
  method NextGroup(quotes: seq<Quote>, from: nat) returns (to: nat)
    requires from < |quotes| && Ascending(quotes, TimeOf)
    ensures from < to <= |quotes|
    ensures forall i :: from <= i < to ==> quotes[i].timestamp == quotes[from].timestamp
    ensures forall i :: to <= i < |quotes| ==> quotes[from].timestamp < quotes[i].timestamp
  {
    to := from + 1;
    while to < |quotes| && quotes[to].timestamp == quotes[from].timestamp
      invariant from < to <= |quotes|
      invariant forall i :: from <= i < to ==> quotes[i].timestamp == quotes[from].timestamp
    {
      to := to + 1;
    }
    forall i | to <= i < |quotes| ensures quotes[from].timestamp < quotes[i].timestamp {
      assert TimeOf(quotes[from]) <= TimeOf(quotes[to]) <= TimeOf(quotes[i]);
    }
  }

  method AdvanceCursor(known: seq<Candle>, cursor: nat, t: Time) returns (next: nat)
    requires cursor <= |known| && Ascending(known, EndOf)
    requires forall i :: 0 <= i < cursor ==> known[i].end <= t
    ensures cursor <= next <= |known|
    ensures EndedBy(known, t) == known[..next]
    ensures forall i :: 0 <= i < next ==> known[i].end <= t
  {
    next := cursor;
    while next < |known| && known[next].end <= t
      invariant cursor <= next <= |known|
      invariant forall i :: 0 <= i < next ==> known[i].end <= t
    {
      next := next + 1;
    }
    forall i | next <= i < |known| ensures t < known[i].end {
      assert EndOf(known[next]) <= EndOf(known[i]);
    }
    PrefixEndedBy(known, next, t);
  }

  lemma InputsAscend(candles: seq<Candle>, quotes: seq<Quote>)
    ensures Ascending(CompleteByEnd(candles), EndOf)
    ensures Ascending(QuotesByTime(quotes), TimeOf)
  {
    SortByKeySorts(Complete(candles), EndOf);
    SortByKeySorts(quotes, TimeOf);
  }

  lemma NoCallsYet(known: seq<Candle>)
    ensures Delivered([]) == [] && Quoted([]) == []
    ensures NoLookAhead([], known) && TimesIncrease([]) && BatchesNonEmpty([])
    ensures forall t :: TimesBelow([], t)
  {
  }

  /** The merge loop of one session. */
  method MergeSession(candles: seq<Candle>, quotes: seq<Quote>) returns (calls: seq<EngineCall>)
    ensures NoLookAhead(calls, CompleteByEnd(candles))
    ensures BatchesNonEmpty(calls)
    ensures Quoted(calls) == QuotesByTime(quotes)
    ensures TimesIncrease(calls)
  {
    hide Delivered, Quoted, NoLookAhead, TimesIncrease, BatchesNonEmpty, TimesBelow, EndedBy, CompleteByEnd,
         QuotesByTime;
    var known, sorted := CompleteByEnd(candles), QuotesByTime(quotes);
    InputsAscend(candles, quotes);
    var cursor, i := 0, 0;
    calls := [];
    NoCallsYet(known);
    while i < |sorted|
      invariant 0 <= i <= |sorted| && 0 <= cursor <= |known|
      invariant Delivered(calls) == known[..cursor] && Quoted(calls) == sorted[..i]
      invariant NoLookAhead(calls, known) && TimesIncrease(calls) && BatchesNonEmpty(calls)
      invariant i < |sorted| ==> TimesBelow(calls, sorted[i].timestamp)
      invariant forall c :: 0 <= c < cursor && i < |sorted| ==> known[c].end <= sorted[i].timestamp
    {
      var to := NextGroup(sorted, i);
      var timestamp, group := sorted[i].timestamp, sorted[i..to];
      var next := AdvanceCursor(known, cursor, timestamp);
      if cursor < next {
        AppendCandles(calls, known[cursor..next], known);
        CallSnoc(calls, IngestCandles(known[cursor..next]));
        calls := calls + [IngestCandles(known[cursor..next])];
        assert known[..next] == known[..cursor] + known[cursor..next];
      }
      AppendQuotes(calls, timestamp, group, known);
      CallSnoc(calls, IngestQuotes(timestamp, group));
      calls := calls + [IngestQuotes(timestamp, group)];
      assert sorted[..to] == sorted[..i] + group;
      cursor, i := next, to;
    }
    assert sorted[..i] == sorted;
  }

  /** Counted candle by candle: at a quote of instant `t` the engine has been given every complete
      candle of the session that ended by `t`, as often as the session holds it, and no other one. */
  lemma KnownAtQuote(calls: seq<EngineCall>, candles: seq<Candle>, k: nat)
    requires NoLookAhead(calls, CompleteByEnd(candles)) && k < |calls| && calls[k].IngestQuotes?
    ensures multiset(Delivered(calls[..k])) == multiset(CompleteEndedBy(candles, calls[k].at))
    ensures Ascending(Delivered(calls[..k]), EndOf)
  {
    hide Delivered, CompleteByEnd;
    var t, known := calls[k].at, CompleteByEnd(candles);
    forall c ensures multiset(EndedBy(known, t))[c] == multiset(CompleteEndedBy(candles, t))[c] {
      CountKnown(candles, t, c);
    }
    InputsAscend(candles, []);
    FilterKeepsAscending(known, EndOf, (c: Candle) => c.end <= t);
  }


  lemma CountKnown(candles: seq<Candle>, t: Time, c: Candle)
    ensures multiset(EndedBy(CompleteByEnd(candles), t))[c] == multiset(CompleteEndedBy(candles, t))[c]
  {
    FilterMultiset(CompleteByEnd(candles), (c: Candle) => c.end <= t, c);
    FilterMultiset(candles, (c: Candle) => c.complete, c);
    FilterMultiset(candles, (c: Candle) => c.complete && c.end <= t, c);
  }

  lemma {:induction false} FilterKeepsAscending(s: seq<Candle>, key: Candle -> int, p: Candle -> bool)
    requires Ascending(s, key)
    ensures Ascending(Filter(s, p), key)
  {
    if s != [] {
      FilterKeepsAscending(s[1..], key, p);
      var rest := Filter(s[1..], p);
      forall j | 0 <= j < |rest| ensures key(s[0]) <= key(rest[j]) {
        assert rest[j] in s[1..];
      }
    }
  }
}
