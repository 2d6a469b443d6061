/** A reference engine without series, historical index and caches. It keeps the flat dictionary of
    candles, sorts it for every question and recalculates everything from it. The indexed and cached
    engine refines it: both answer alike, whatever is asked and however often. */
module FeatureReference {
  import opened Lists
  import opened Clock
  import opened Candles
  import opened FeatureState
  import opened FeatureIndex

  // ------------------------------------------------------------------ sorting the dictionary

  lemma {:induction false} FirstExists(s: set<Candle>)
    requires s != {}
    ensures exists c :: c in s && forall d :: d in s ==> c.start <= d.start
    decreases s
  {
    if forall x :: x !in s { assert false; }
    var c :| c in s;
    var earlier := set d | d in s && d.start < c.start;
    assert forall d :: d in s ==> d in earlier || c.start <= d.start;
    if earlier == {} {
      assert c in s && forall d :: d in s ==> c.start <= d.start;
    } else {
      FirstExists(earlier);
      var first :| first in earlier && forall d :: d in earlier ==> first.start <= d.start;
      assert first in s && forall d :: d in s ==> first.start <= d.start;
    }
  }

  ghost function Sorted(s: set<Candle>): seq<Candle>
    decreases |s|
  {
    if s == {} then []
    else
      FirstExists(s);
      var first :| first in s && forall d :: d in s ==> first.start <= d.start;
      [first] + Sorted(s - {first})
  }

  /** A set of candles has one index only. */
  lemma {:induction false} IndexIsSorted(cs: seq<Candle>, s: set<Candle>)
    requires Indexes(cs, s)
    ensures cs == Sorted(s)
    decreases |cs|
  {
    if cs == [] {
      if s != {} {
        FirstExists(s);
        assert false;
      }
    } else {
      assert cs[0] in s;
      SortedStartsFirst(s, cs[0]);
      TailIndexes(cs, s);
      IndexIsSorted(cs[1..], s - {cs[0]});
      assert cs == [cs[0]] + cs[1..];
    }
  }

  lemma SortedStartsFirst(s: set<Candle>, first: Candle)
    requires first in s && forall d :: d in s && d != first ==> first.start < d.start
    ensures Sorted(s) == [first] + Sorted(s - {first})
  {
    FirstExists(s);
    var c :| c in s && (forall d :: d in s ==> c.start <= d.start) && Sorted(s) == [c] + Sorted(s - {c});
    assert c == first;
  }

  lemma TailIndexes(cs: seq<Candle>, s: set<Candle>)
    requires Indexes(cs, s) && cs != []
    ensures Indexes(cs[1..], s - {cs[0]})
  {
    forall c ensures c in cs[1..] <==> c in s - {cs[0]} {
      if c in cs && c != cs[0] {
        var i :| 0 <= i < |cs| && cs[i] == c;
        assert cs[1..][i - 1] == c;
      }
      if c in cs[1..] {
        var i :| 0 <= i < |cs[1..]| && cs[1..][i] == c;
        assert cs[i + 1].start > cs[0].start;
      }
    }
  }

  // ------------------------------------------------------------------ the reference engine

  /** `completed` holds, for every start before the session, the latest complete one-minute record. */
  datatype Reference = Reference(
    session: Option<Session>,
    instruments: map<InstrumentId, Instrument>,
    candidates: set<InstrumentId>,
    candles: map<CandleKey, Candle>,
    completed: map<CandleKey, Candle>,
    quotes: map<InstrumentId, Quote>,
    snapshots: map<InstrumentId, Snapshot>,
    unavailable: set<InstrumentId>)

  const BLANK: Reference := Reference(None, map[], {}, map[], map[], map[], map[], {})

  ghost function Series(r: Reference, id: InstrumentId, tf: Timeframe): seq<Candle> {
    Sorted(Entries(r.candles, id, tf))
  }

  function Dates(m: map<CandleKey, Candle>, id: InstrumentId): set<int> {
    set k | k in m && k.id == id :: UtcDate(k.start)
  }

  function Dated(m: map<CandleKey, Candle>, id: InstrumentId, date: int): set<Candle> {
    set k | k in m && k.id == id && UtcDate(k.start) == date :: m[k]
  }

  ghost function PastSessions(r: Reference, id: InstrumentId): History {
    map date | date in Dates(r.completed, id) :: Sorted(Dated(r.completed, id, date))
  }

  ghost function FullFeatures(r: Reference, s: Session, id: InstrumentId, t: Time): Derived {
    Derive(s, Series(r, id, OneMinute), Series(r, id, FiveMinutes), Series(r, id, OneDay), PastSessions(r, id), t)
  }

  ghost function FullCalculation(r: Reference, s: Session, q: Quote): Snapshot {
    Full(s.market, q, FullFeatures(r, s, q.id, q.timestamp))
  }

  ghost function BenchmarkCalculation(r: Reference, s: Session, q: Quote): Snapshot {
    BenchmarkOnly(s.market, q, LastCompletedClose(Series(r, q.id, OneMinute), q.timestamp - 60 * 5))
  }

  ghost function FullContext(r: Reference, s: Session, id: InstrumentId, t: Time): ContextBase {
    DeriveContext(s, Series(r, id, FiveMinutes), Series(r, id, OneDay), t)
  }

  function Start(r: Reference, s: Session): (Reference, Option<Error>) {
    if s.end <= s.start then (r, Some(EndNotAfterStart))
    else
      var instruments, candidates := InstrumentMap(s.instruments), CandidateIds(s.instruments);
      if MarketBenchmarks(s.instruments) > 1 then
        (r.(session := Some(s), instruments := instruments, candidates := candidates), Some(TwoMarketBenchmarks))
      else
        (BLANK.(session := Some(s), instruments := instruments, candidates := candidates), None)
  }

  function Enter(r: Reference, s: Session, c: Candle): Reference {
    r.(candles := r.candles[KeyOf(c) := c],
       completed := if Historical(s, c) then r.completed[KeyOf(c) := c] else r.completed)
  }

  function EnterAll(r: Reference, s: Session, batch: seq<Candle>): (Reference, Option<Error>)
    decreases |batch|
  {
    if batch == [] then (r, None)
    else if CandleError(r.instruments, batch[0]).Some? then (r, CandleError(r.instruments, batch[0]))
    else EnterAll(Enter(r, s, batch[0]), s, batch[1..])
  }

  ghost function Recalculated(r: Reference, s: Session, ids: set<InstrumentId>): map<InstrumentId, Snapshot> {
    map id | id in ids && id in r.quotes :: FullCalculation(r, s, r.quotes[id])
  }

  ghost function EnterBatch(r: Reference, batch: seq<Candle>): (Reference, Option<Error>) {
    match r.session
    case None => (r, Some(NoSession))
    case Some(s) =>
      var (added, error) := EnterAll(r, s, batch);
      if error.Some? then (added, error)
      else (added.(snapshots := added.snapshots + Recalculated(added, s, BatchIds(batch))), None)
  }

  function Lose(r: Reference, id: InstrumentId): Reference {
    r.(unavailable := r.unavailable + {id}, quotes := r.quotes - {id}, snapshots := r.snapshots - {id})
  }

  ghost function Take(r: Reference, s: Session, q: Quote, full: bool): Reference {
    var taken := r.(unavailable := r.unavailable - {q.id}, quotes := r.quotes[q.id := q]);
    taken.(snapshots := taken.snapshots[q.id :=
      if full then FullCalculation(taken, s, q) else BenchmarkCalculation(taken, s, q)])
  }

  datatype Quoted = Quoted(reference: Reference, snapshots: seq<Snapshot>, error: Option<Error>)

  ghost function TakeAll(r: Reference, s: Session, quotes: seq<Quote>, benchmarks: bool): Quoted
    decreases |quotes|
  {
    if quotes == [] then Quoted(r, [], None)
    else
      var q := quotes[0];
      if !Known(r.instruments, q.id, q.symbol) then Quoted(r, [], Some(UnknownInstrument(q.symbol)))
      else if InvalidQuoteValues(q) then
        if r.instruments[q.id].role.Benchmark? then TakeAll(Lose(r, q.id), s, quotes[1..], benchmarks)
        else Quoted(r, [], Some(InvalidQuote(q.symbol)))
      else
        var next := Take(r, s, q, benchmarks || q.id in r.candidates);
        var rest := TakeAll(next, s, quotes[1..], benchmarks);
        if rest.error.Some? then rest
        else Quoted(rest.reference, [next.snapshots[q.id]] + rest.snapshots, None)
  }

  function Join(r: Reference, i: Instrument): Reference {
    r.(instruments := if i.id in r.instruments then r.instruments else r.instruments[i.id := i],
       candidates := if i.role.Candidate? then r.candidates + {i.id} else r.candidates)
  }

  function Leave(r: Reference, ids: set<InstrumentId>): Reference {
    Reference(r.session, r.instruments - ids, r.candidates - ids,
              WithoutCandles(r.candles, ids), WithoutCandles(r.completed, ids),
              r.quotes - ids, r.snapshots - ids, r.unavailable - ids)
  }

  datatype Answer = Answer(reference: Reference, outcome: Outcome)

  ghost function Respond(r: Reference, op: Op): Answer {
    match op
    case OpStart(s) => var (next, error) := Start(r, s); Answer(next, OutcomeOf(error))
    case OpWarm(i, batch) =>
      if r.session.None? then Answer(r, Raised(NoSession))
      else if i.id in r.instruments && r.instruments[i.id].symbol != i.symbol then
        Answer(r, Raised(IdentityChanged(i.symbol)))
      else var (next, error) := EnterBatch(Join(r, i), batch); Answer(next, OutcomeOf(error))
    case OpRetire(ids) =>
      var leaving := set id | id in ids && id in r.instruments;
      if r.session.None? then Answer(r, Raised(NoSession))
      else if exists id :: id in leaving && r.instruments[id].role.Benchmark? then Answer(r, Raised(BenchmarkRetired))
      else Answer(Leave(r, leaving), Finished)
    case OpCandles(batch) => var (next, error) := EnterBatch(r, batch); Answer(next, OutcomeOf(error))
    case OpQuotes(quotes, benchmarks) =>
      if r.session.None? then Answer(r, Raised(NoSession))
      else
        var q := TakeAll(r, r.session.value, quotes, benchmarks);
        Answer(q.reference, if q.error.Some? then Raised(q.error.value) else Snapshots(q.snapshots))
    case OpContext(id, at) =>
      if r.session.None? then Answer(r, Raised(NoSession))
      else if id !in r.instruments then Answer(r, Raised(NotInSession))
      else Answer(r, Base(FullContext(r, r.session.value, id, at)))
  }

  datatype Answers = Answers(reference: Reference, outcomes: seq<Outcome>)

  ghost function Consult(r: Reference, ops: seq<Op>): Answers {
    if ops == [] then Answers(r, [])
    else
      var before := Consult(r, ops[..|ops| - 1]);
      var last := Respond(before.reference, ops[|ops| - 1]);
      Answers(last.reference, before.outcomes + [last.outcome])
  }
}
