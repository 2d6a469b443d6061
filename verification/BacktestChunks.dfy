/** The accumulator of chunked backtest runs (services/scanner/app/backtest_chunks.py). Its lock makes
    every call atomic, so concurrent workers amount to an arbitrary interleaving of calls. */
module BacktestChunks {
  import opened Lists

  type ChunkId = string

  /** Readings of the monotonic clock. */
  type Instant = real

  /** One session of the run, and the run's metadata that every chunk repeats. */
  datatype Chunk<M, S> = Chunk(id: ChunkId, metadata: M, session: S, isFinal: bool)

  datatype Accumulator<M, S> = Accumulator(metadata: M, sessions: seq<S>, lastTouched: Instant)

  /** The request handed to the replay engine. */
  datatype FullRequest<M, S> = FullRequest(sessions: seq<S>, metadata: M)

  type Entries<M, S> = map<ChunkId, Accumulator<M, S>>

  // ------------------------------------------------------------------ the steps

  function Evict<M, S>(entries: Entries<M, S>, ttl: real, now: Instant): Entries<M, S> {
    map k | k in entries && now - ttl <= entries[k].lastTouched :: entries[k]
  }

  function Append<M, S>(entries: Entries<M, S>, c: Chunk<M, S>, touched: Instant): Accumulator<M, S> {
    if c.id in entries then entries[c.id].(sessions := entries[c.id].sessions + [c.session], lastTouched := touched)
    else Accumulator(c.metadata, [c.session], touched)
  }

  function AddTo<M, S>(entries: Entries<M, S>, ttl: real, c: Chunk<M, S>, now: Instant, touched: Instant)
    : (Entries<M, S>, Option<FullRequest<M, S>>)
  {
    var kept := Evict(entries, ttl, now);
    var entry := Append(kept, c, touched);
    if c.isFinal then (kept - {c.id}, Some(FullRequest(entry.sessions, entry.metadata)))
    else (kept[c.id := entry], None)
  }

  /** A worker's call: a chunk with the clock readings of its eviction and of its touch, or a discard. */
  datatype Call<M, S> =
    | Add(chunk: Chunk<M, S>, now: Instant, touched: Instant)
    | Discard(id: ChunkId)

  function IdOf<M, S>(call: Call<M, S>): ChunkId {
    match call
    case Add(chunk, _, _) => chunk.id
    case Discard(id) => id
  }

  datatype Served<M, S> = Served(entries: Entries<M, S>, result: Option<FullRequest<M, S>>)

  function Serve<M, S>(entries: Entries<M, S>, ttl: real, call: Call<M, S>): Served<M, S> {
    match call
    case Add(chunk, now, touched) =>
      var (next, result) := AddTo(entries, ttl, chunk, now, touched);
      Served(next, result)
    case Discard(id) => Served(entries - {id}, None)
  }

  // ------------------------------------------------------------------ the object

  class ChunkedBacktestAccumulator<M, S> {
    var entries: Entries<M, S>
    const ttlSeconds: real

    constructor (ttl: real)
      ensures entries == map[] && ttlSeconds == ttl
    {
      entries := map[];
      ttlSeconds := ttl;
    }

    method EvictStale(now: Instant)
      modifies this`entries
      ensures entries == Evict(old(entries), ttlSeconds, now)
    {
      var cutoff := now - ttlSeconds;
      var stale := set k | k in entries && entries[k].lastTouched < cutoff;
      ghost var before := entries;
      while stale != {}
        invariant stale <= before.Keys && forall k :: k in stale ==> before[k].lastTouched < cutoff
        invariant forall k :: k in before && before[k].lastTouched < cutoff && k !in stale ==> k !in entries
        invariant forall k :: k in entries ==> k in before && entries[k] == before[k]
        invariant forall k :: k in before && cutoff <= before[k].lastTouched ==> k in entries
        decreases stale
      {
        if forall x :: x !in stale { assert false; }
        var key :| key in stale;
        entries := entries - {key};
        stale := stale - {key};
      }
    }

    /** Before the new touch, no entry that survived the eviction is older than the time to live. */
    method AddChunk(c: Chunk<M, S>, now: Instant, touched: Instant) returns (result: Option<FullRequest<M, S>>)
      modifies this`entries
      ensures (entries, result) == AddTo(old(entries), ttlSeconds, c, now, touched)
      ensures forall k :: k in entries && k != c.id ==>
                k in old(entries) && entries[k] == old(entries)[k] && now - entries[k].lastTouched <= ttlSeconds
    {
      EvictStale(now);
      var entry := if c.id in entries then entries[c.id] else Accumulator(c.metadata, [], touched);
      assert [] + [c.session] == [c.session];
      entry := entry.(sessions := entry.sessions + [c.session]);
      entry := entry.(lastTouched := touched);
      entries := entries[c.id := entry];
      if !c.isFinal {
        return None;
      }
      var full := FullRequest(entry.sessions, entry.metadata);
      assert entries - {c.id} == Evict(old(entries), ttlSeconds, now) - {c.id};
      entries := entries - {c.id};
      return Some(full);
    }

    method Discard(id: ChunkId)
      modifies this`entries
      ensures entries == old(entries) - {id}
    {
      entries := entries - {id};
    }
  }

  // ------------------------------------------------------------------ runs

  datatype Log<M, S> = Log(entries: Entries<M, S>, results: seq<(ChunkId, Option<FullRequest<M, S>>)>)

  function Process<M, S>(entries: Entries<M, S>, ttl: real, calls: seq<Call<M, S>>): Log<M, S>
  {
    if calls == [] then Log(entries, [])
    else
      var before := Process(entries, ttl, calls[..|calls| - 1]);
      var call := calls[|calls| - 1];
      var last := Serve(before.entries, ttl, call);
      Log(last.entries, before.results + [(IdOf(call), last.result)])
  }

  /** The clock is monotone: within a call and from call to call. */
  ghost predicate Monotone<M, S>(calls: seq<Call<M, S>>) {
    && (forall i :: 0 <= i < |calls| && calls[i].Add? ==> calls[i].now <= calls[i].touched)
    && (forall i, j :: 0 <= i < j < |calls| && calls[i].Add? && calls[j].Add? ==> calls[i].touched <= calls[j].now)
  }

  /** The calls that concern one chunk id. */
  function Project<M, S>(calls: seq<Call<M, S>>, id: ChunkId): seq<Call<M, S>> {
    if calls == [] then []
    else
      var last := calls[|calls| - 1];
      Project(calls[..|calls| - 1], id) + (if IdOf(last) == id then [last] else [])
  }

  function ResultsFor<M, S>(results: seq<(ChunkId, Option<FullRequest<M, S>>)>, id: ChunkId)
    : seq<Option<FullRequest<M, S>>>
  {
    if results == [] then []
    else
      var last := results[|results| - 1];
      ResultsFor(results[..|results| - 1], id) + (if last.0 == id then [last.1] else [])
  }

  /** Latest reading of the clock, if any. */
  ghost predicate NotAfter<M, S>(calls: seq<Call<M, S>>, now: Instant) {
    forall i :: 0 <= i < |calls| && calls[i].Add? ==> calls[i].touched <= now
  }

  /** The entry the interleaved run holds for `id` is the one the projected run holds, or the latter is
      stale already and will be evicted by the next call of its own. */
  ghost predicate SameOrStale<M, S>(
      full: Entries<M, S>, own: Entries<M, S>, id: ChunkId, ttl: real, calls: seq<Call<M, S>>) {
    && (id in full ==> id in own && own[id] == full[id])
    && (id in own && id !in full ==>
          forall now :: NotAfter(calls, now) ==> own[id].lastTouched < now - ttl)
  }

  lemma ProcessSnoc<M, S>(entries: Entries<M, S>, ttl: real, calls: seq<Call<M, S>>, call: Call<M, S>)
    ensures var before := Process(entries, ttl, calls);
            var last := Serve(before.entries, ttl, call);
            Process(entries, ttl, calls + [call]) == Log(last.entries, before.results + [(IdOf(call), last.result)])
  {
    assert (calls + [call])[..|calls|] == calls;
  }

  lemma ProjectSnoc<M, S>(calls: seq<Call<M, S>>, call: Call<M, S>, id: ChunkId)
    ensures Project(calls + [call], id) == Project(calls, id) + (if IdOf(call) == id then [call] else [])
  {
    assert (calls + [call])[..|calls|] == calls;
  }

  lemma MonotonePrefix<M, S>(calls: seq<Call<M, S>>)
    requires calls != [] && Monotone(calls)
    ensures var n := |calls| - 1;
            Monotone(calls[..n]) && (calls[n].Add? ==> NotAfter(calls[..n], calls[n].now))
  {
  }

  /** One more call of any worker keeps the relation. */
  lemma ServeKeepsRelation<M, S>(
      full: Entries<M, S>, own: Entries<M, S>, id: ChunkId, ttl: real, calls: seq<Call<M, S>>, call: Call<M, S>)
    requires SameOrStale(full, own, id, ttl, calls)
    requires call.Add? ==> NotAfter(calls, call.now) && call.now <= call.touched
    ensures IdOf(call) != id ==> SameOrStale(Serve(full, ttl, call).entries, own, id, ttl, calls + [call])
    ensures IdOf(call) == id ==>
              SameOrStale(Serve(full, ttl, call).entries, Serve(own, ttl, call).entries, id, ttl, calls + [call])
    ensures IdOf(call) == id ==> Serve(full, ttl, call).result == Serve(own, ttl, call).result
  {
    assert calls[..] == calls;
    var all := calls + [call];
    forall now | NotAfter(all, now) ensures NotAfter(calls, now) && (call.Add? ==> call.touched <= now) {
      assert forall i :: 0 <= i < |calls| ==> all[i] == calls[i];
      assert all[|calls|] == call;
    }
    if call.Add? && id in own && id !in full {
      assert own[id].lastTouched < call.now - ttl;
    }
  }

  /** Non-interference: in every interleaving a chunk id gets the results of its own calls alone. */
  lemma {:induction false} OthersDoNotInterfere<M, S>(ttl: real, calls: seq<Call<M, S>>, id: ChunkId)
    requires Monotone(calls)
    ensures var full, own := Process(map[], ttl, calls), Process(map[], ttl, Project(calls, id));
            && ResultsFor(full.results, id) == ResultsFor(own.results, id)
            && SameOrStale(full.entries, own.entries, id, ttl, calls)
  {
    if calls != [] {
      hide Process, Project, ResultsFor, Serve, SameOrStale, Monotone;
      var n := |calls| - 1;
      var call, before, mine := calls[n], calls[..n], Project(calls[..n], id);
      MonotonePrefix(calls);
      assert calls == before + [call];
      OthersDoNotInterfere(ttl, before, id);
      var full, own := Process(map[], ttl, before), Process(map[], ttl, mine);
      MonotoneCall(calls);
      ServeKeepsRelation(full.entries, own.entries, id, ttl, before, call);
      ProcessSnoc(map[], ttl, before, call);
      ProjectSnoc(before, call, id);
      ResultsSnoc(full.results, (IdOf(call), Serve(full.entries, ttl, call).result), id);
      if IdOf(call) == id {
        ProcessSnoc(map[], ttl, mine, call);
        ResultsSnoc(own.results, (id, Serve(own.entries, ttl, call).result), id);
      } else {
        assert mine + [] == mine;
      }
    } else {
      assert calls == [];
    }
  }

  lemma MonotoneCall<M, S>(calls: seq<Call<M, S>>)
    requires calls != [] && Monotone(calls)
    ensures var call := calls[|calls| - 1]; call.Add? ==> call.now <= call.touched
  {
  }

  lemma ResultsSnoc<M, S>(
      results: seq<(ChunkId, Option<FullRequest<M, S>>)>, r: (ChunkId, Option<FullRequest<M, S>>), id: ChunkId)
    ensures ResultsFor(results + [r], id) == ResultsFor(results, id) + (if r.0 == id then [r.1] else [])
  {
    assert (results + [r])[..|results|] == results;
  }

  // ------------------------------------------------------------------ one run, split into chunks

  /** The calls of one worker: one chunk after another, the last one final. */
  ghost predicate SplitRun<M, S>(own: seq<Call<M, S>>, id: ChunkId) {
    && own != []
    && forall i :: 0 <= i < |own| ==>
         own[i].Add? && own[i].chunk.id == id && own[i].chunk.isFinal == (i == |own| - 1)
  }

  ghost predicate GapsWithin<M, S>(ttl: real, own: seq<Call<M, S>>)
    requires forall i :: 0 <= i < |own| ==> own[i].Add?
  {
    forall i :: 0 < i < |own| ==> own[i].now - own[i - 1].touched <= ttl
  }

  function Sessions<M, S>(own: seq<Call<M, S>>): (r: seq<S>)
    requires forall i :: 0 <= i < |own| ==> own[i].Add?
    ensures |r| == |own|
  {
    if own == [] then [] else Sessions(own[..|own| - 1]) + [own[|own| - 1].chunk.session]
  }

  /** Index of the first call after the last gap that is longer than the time to live. */
  function Resumed<M, S>(ttl: real, own: seq<Call<M, S>>, k: nat): (b: nat)
    requires 0 < k <= |own| && forall i :: 0 <= i < |own| ==> own[i].Add?
    ensures b < k
  {
    if k == 1 || own[k - 1].now - ttl > own[k - 2].touched then k - 1 else Resumed(ttl, own, k - 1)
  }

  lemma {:induction false} ResumedAtStart<M, S>(ttl: real, own: seq<Call<M, S>>, k: nat)
    requires 0 < k <= |own| && forall i :: 0 <= i < |own| ==> own[i].Add?
    ensures Resumed(ttl, own, k) == 0 <==> GapsWithin(ttl, own[..k])
  {
    if k > 1 {
      ResumedAtStart(ttl, own, k - 1);
      assert own[..k][k - 1] == own[k - 1] && own[..k][k - 2] == own[k - 2];
      assert forall i :: 0 <= i < k - 1 ==> own[..k][i] == own[..k - 1][i];
    }
  }

  /** What one call adds to an entry of its own, or to none. */
  lemma AppendsOwn<M, S>(ttl: real, own: seq<Call<M, S>>, id: ChunkId, k: nat, entries: Entries<M, S>)
    requires SplitRun(own, id) && 0 < k <= |own|
    requires k == 1 ==> entries == map[]
    requires k > 1 ==> entries == map[id := Held(own, Resumed(ttl, own, k - 1), k - 1)]
    ensures Append(Evict(entries, ttl, own[k - 1].now), own[k - 1].chunk, own[k - 1].touched) ==
            Held(own, Resumed(ttl, own, k), k)
    ensures Evict(entries, ttl, own[k - 1].now) - {id} == map[]
  {
    var b, call := Resumed(ttl, own, k), own[k - 1];
    var kept := Evict(entries, ttl, call.now);
    assert own[b..k][..k - 1 - b] == own[b..k - 1];
    if k > 1 && own[k - 1].now - ttl <= own[k - 2].touched {
      assert kept == entries;
    } else {
      assert kept == map[];
      assert Sessions(own[b..k]) == [call.chunk.session];
    }
  }

  /** The entry that calls `b` to `k` of a worker leave. */
  function Held<M, S>(own: seq<Call<M, S>>, b: nat, k: nat): Accumulator<M, S>
    requires b < k <= |own| && forall i :: 0 <= i < |own| ==> own[i].Add?
  {
    Accumulator(own[b].chunk.metadata, Sessions(own[b..k]), own[k - 1].touched)
  }

  lemma {:induction false} BeforeFinal<M, S>(ttl: real, own: seq<Call<M, S>>, id: ChunkId, k: nat)
    requires SplitRun(own, id) && k < |own|
    ensures var log := Process(map[], ttl, own[..k]);
            && log.entries == (if k == 0 then map[] else map[id := Held(own, Resumed(ttl, own, k), k)])
            && |ResultsFor(log.results, id)| == k
            && forall i :: 0 <= i < k ==> ResultsFor(log.results, id)[i] == None
  {
    if k > 0 {
      hide Append, Evict, Held, Process, ResultsFor, Resumed;
      BeforeFinal(ttl, own, id, k - 1);
      var log := Process(map[], ttl, own[..k - 1]);
      AppendsOwn(ttl, own, id, k, log.entries);
      assert own[..k] == own[..k - 1] + [own[k - 1]];
      ProcessSnoc(map[], ttl, own[..k - 1], own[k - 1]);
      ResultsSnoc(log.results, (id, Serve(log.entries, ttl, own[k - 1]).result), id);
      NextEntry(Evict(log.entries, ttl, own[k - 1].now), id, Held(own, Resumed(ttl, own, k), k));
    } else {
      assert own[..k] == [];
    }
  }

  lemma NextEntry<M, S>(entries: Entries<M, S>, id: ChunkId, held: Accumulator<M, S>)
    requires entries - {id} == map[]
    ensures entries[id := held] == map[id := held]
  {
    forall k | k in entries ensures k == id {
      assert k == id || k in entries - {id};
    }
  }

  /** The final chunk replays what arrived since the last gap longer than the time to live,
      under the metadata of the first chunk after it. */
  lemma FinalReplays<M, S>(ttl: real, own: seq<Call<M, S>>, id: ChunkId)
    requires SplitRun(own, id)
    ensures var n := |own|; var b := Resumed(ttl, own, n);
            var results := ResultsFor(Process(map[], ttl, own).results, id);
            && |results| == n
            && (forall i :: 0 <= i < n - 1 ==> results[i] == None)
            && results[n - 1] == Some(FullRequest(Sessions(own[b..]), own[b].chunk.metadata))
  {
    hide Append, Evict, Process, ResultsFor;
    var n := |own|;
    BeforeFinal(ttl, own, id, n - 1);
    var log := Process(map[], ttl, own[..n - 1]);
    AppendsOwn(ttl, own, id, n, log.entries);
    assert own == own[..n - 1] + [own[n - 1]];
    ProcessSnoc(map[], ttl, own[..n - 1], own[n - 1]);
    ResultsSnoc(log.results, (id, Serve(log.entries, ttl, own[n - 1]).result), id);
    var b := Resumed(ttl, own, n);
    assert own[b..n] == own[b..];
  }

  /** Split into chunks and interleaved with any other workers, a run gets no answer before its final
      chunk, and that one replays the full request exactly when no gap was longer than the time to live. */
  lemma ChunkedRunIsOneShot<M, S>(ttl: real, calls: seq<Call<M, S>>, id: ChunkId)
    requires Monotone(calls) && SplitRun(Project(calls, id), id)
    ensures var own := Project(calls, id);
            var results := ResultsFor(Process(map[], ttl, calls).results, id);
            && |results| == |own|
            && (forall i :: 0 <= i < |own| - 1 ==> results[i] == None)
            && (results[|own| - 1] == Some(FullRequest(Sessions(own), own[0].chunk.metadata)) <==>
                GapsWithin(ttl, own))
  {
    hide Process, ResultsFor, Project, Monotone, SameOrStale;
    var own := Project(calls, id);
    OthersDoNotInterfere(ttl, calls, id);
    FinalReplays(ttl, own, id);
    ResumedAtStart(ttl, own, |own|);
    assert own[..|own|] == own && own[0..] == own;
  }
}
