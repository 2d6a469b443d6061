/** Concurrent enqueueing of one funded comparison (apps/api/src/funded-comparison.ts:213-279): any number of
    clients with one frozen identity, interleaved at every repository and job-store call. */
module FundedEnqueue {
  import opened Lists

  type SpecId = nat
  type JobId = nat

  /** A retained specification. Its content is what the build makes of the input and the freeze time, so
      two builds of one input match exactly when their freeze times do; the digest follows the content. */
  datatype Row = Row(specId: SpecId, frozenAt: int)

  datatype Job = Job(id: JobId, maxSessions: nat)

  datatype Failure = RetainedInputMissing | ConflictingRetry | IdempotencyConflict

  /** Where a client stands; each state but the last two names its next call. */
  datatype Client =
    | Lookup
    | Load(id: SpecId)
    | SaveRetained(row: Row)
    | SaveFresh
    | LookupWinner
    | LoadWinner(id: SpecId)
    | SaveWinner(row: Row)
    | CreateJob(row: Row, reused: bool)
    | Finished(specId: SpecId, jobId: JobId, reused: bool)
    | Failed(error: Failure)

  /** The row of the frozen identity and the jobs by specification digest; `created` counts insertions. */
  datatype Store = Store(row: Option<Row>, jobs: map<int, Job>, created: nat)

  /** What the databases choose at a call: the clock of a save and the ids of what is inserted. */
  datatype Choice = Choice(databaseTime: int, newSpecId: SpecId, newJobId: JobId)

  // ------------------------------------------------------------------ the calls

  datatype Saved = Stored(row: Row) | Conflict

  /** Inserts on a fresh identity, returns the row on an exact match, otherwise conflicts. */
  function Save(s: Store, frozenAt: int, c: Choice): (Store, Saved) {
    match s.row
    case None => var row := Row(c.newSpecId, frozenAt); (s.(row := Some(row), created := s.created + 1), Stored(row))
    case Some(row) => (s, if row.frozenAt == frozenAt then Stored(row) else Conflict)
  }

  function Find(s: Store): Option<SpecId> { if s.row.Some? then Some(s.row.value.specId) else None }

  function LoadSpec(s: Store, id: SpecId): Option<Row> {
    if s.row.Some? && s.row.value.specId == id then s.row else None
  }

  /** Idempotent by the digest; a different payload under the same key is refused. */
  function CreateStrictJob(s: Store, row: Row, maxSessions: nat, c: Choice): (Store, Option<JobId>) {
    if row.frozenAt in s.jobs then
      (s, if s.jobs[row.frozenAt].maxSessions == maxSessions then Some(s.jobs[row.frozenAt].id) else None)
    else (s.(jobs := s.jobs[row.frozenAt := Job(c.newJobId, maxSessions)]), Some(c.newJobId))
  }

  /** A job under the specification's digest that asks for another number of sessions. */
  predicate Refused(jobs: map<int, Job>, row: Row, maxSessions: nat) {
    row.frozenAt in jobs && jobs[row.frozenAt].maxSessions != maxSessions
  }

  function Act(s: Store, client: Client, maxSessions: nat, c: Choice): (Store, Client) {
    match client
    case Lookup => (s, if Find(s).Some? then Load(Find(s).value) else SaveFresh)
    case Load(id) =>
      (s, if LoadSpec(s, id).Some? then SaveRetained(LoadSpec(s, id).value) else Failed(RetainedInputMissing))
    case SaveRetained(row) =>
      var (next, saved) := Save(s, row.frozenAt, c);
      (next, if saved.Stored? then CreateJob(saved.row, true) else Failed(ConflictingRetry))
    case SaveFresh =>
      var (next, saved) := Save(s, c.databaseTime, c);
      (next, if saved.Stored? then CreateJob(saved.row, false) else LookupWinner)
    case LookupWinner => (s, if Find(s).Some? then LoadWinner(Find(s).value) else Failed(ConflictingRetry))
    case LoadWinner(id) =>
      (s, if LoadSpec(s, id).Some? then SaveWinner(LoadSpec(s, id).value) else Failed(ConflictingRetry))
    case SaveWinner(row) =>
      var (next, saved) := Save(s, row.frozenAt, c);
      (next, if saved.Stored? then CreateJob(saved.row, true) else Failed(ConflictingRetry))
    case CreateJob(row, reused) =>
      var (next, job) := CreateStrictJob(s, row, maxSessions, c);
      (next, if job.Some? then Finished(row.specId, job.value, reused) else Failed(IdempotencyConflict))
    case Finished(_, _, _) => (s, client)
    case Failed(_) => (s, client)
  }

  predicate Saves(client: Client) { client.SaveRetained? || client.SaveFresh? || client.SaveWinner? }

  predicate Ended(client: Client) { client.Finished? || client.Failed? }

  // ------------------------------------------------------------------ the call, uninterrupted

  class Stores {
    var row: Option<Row>
    var jobs: map<int, Job>
    var created: nat

    function Contents(): Store
      reads this
    {
      Store(row, jobs, created)
    }

    constructor ()
      ensures Contents() == Store(None, map[], 0)
    {
      row, jobs, created := None, map[], 0;
    }

    method SaveSpecification(frozenAt: int, c: Choice) returns (saved: Saved)
      modifies this
      ensures (Contents(), saved) == Save(old(Contents()), frozenAt, c)
    {
      if row.None? {
        row := Some(Row(c.newSpecId, frozenAt));
        created := created + 1;
        return Stored(row.value);
      }
      return if row.value.frozenAt == frozenAt then Stored(row.value) else Conflict;
    }

    method CreateJobOnce(row: Row, maxSessions: nat, c: Choice) returns (id: Option<JobId>)
      modifies this
      ensures (Contents(), id) == CreateStrictJob(old(Contents()), row, maxSessions, c)
    {
      if row.frozenAt in jobs {
        return if jobs[row.frozenAt].maxSessions == maxSessions then Some(jobs[row.frozenAt].id) else None;
      }
      jobs := jobs[row.frozenAt := Job(c.newJobId, maxSessions)];
      return Some(c.newJobId);
    }

    /** One client on its own: a specification already there is retained and reused, else it creates one. */
    method Enqueue(maxSessions: nat, c: Choice) returns (result: Client)
      modifies this
      ensures var before := old(Contents());
              && row == (if before.row.Some? then before.row else Some(Row(c.newSpecId, c.databaseTime)))
              && created == before.created + (if before.row.Some? then 0 else 1)
              && row.Some?
              && jobs == (if row.value.frozenAt in before.jobs then before.jobs
                          else before.jobs[row.value.frozenAt := Job(c.newJobId, maxSessions)])
              && row.value.frozenAt in jobs
              && result == (if Refused(before.jobs, row.value, maxSessions) then Failed(IdempotencyConflict)
                            else Finished(row.value.specId, jobs[row.value.frozenAt].id, before.row.Some?))
    {
      var retained: Option<Row> := None;
      if row.Some? {
        retained := row;
      }
      var reused := retained.Some?;
      var saved := SaveSpecification(if retained.Some? then retained.value.frozenAt else c.databaseTime, c);
      var job := CreateJobOnce(saved.row, maxSessions, c);
      if job.None? {
        return Failed(IdempotencyConflict);
      }
      return Finished(saved.row.specId, job.value, reused);
    }
  }

  // ------------------------------------------------------------------ any number of clients

  /** A client with its history: how often it was scheduled, how often it saved, and the database time of
      its save without a retained row. */
  datatype Process = Process(client: Client, turns: nat, saves: nat, freshAt: Option<int>)

  datatype System = System(store: Store, processes: seq<Process>, maxSessions: nat, creator: Option<nat>)

  datatype Event = Event(who: nat, choice: Choice)

  function Turn(sys: System, e: Event): System
    requires e.who < |sys.processes|
  {
    var p := sys.processes[e.who];
    var (store, client) := Act(sys.store, p.client, sys.maxSessions, e.choice);
    var next := Process(client, p.turns + 1, p.saves + (if Saves(p.client) then 1 else 0),
                        if p.client.SaveFresh? then Some(e.choice.databaseTime) else p.freshAt);
    System(store, sys.processes[e.who := next], sys.maxSessions,
           if store.created > sys.store.created then Some(e.who) else sys.creator)
  }

  ghost predicate Schedule(events: seq<Event>, clients: nat) {
    forall i :: 0 <= i < |events| ==> events[i].who < clients
  }

  function RunSystem(sys: System, events: seq<Event>): (after: System)
    requires forall i :: 0 <= i < |events| ==> events[i].who < |sys.processes|
    ensures |after.processes| == |sys.processes|
  {
    if events == [] then sys
    else Turn(RunSystem(sys, events[..|events| - 1]), events[|events| - 1])
  }

  /** Every client is about to look up; a row may be there already, with or without its job. */
  function Initially(clients: nat, row: Option<Row>, jobs: map<int, Job>, maxSessions: nat): System {
    System(Store(row, jobs, 0), seq(clients, _ => Process(Lookup, 0, 0, None)), maxSessions, None)
  }

  // ------------------------------------------------------------------ the invariant

  /** Calls a client has behind it at most, and still before it at most. */
  function Ahead(client: Client): nat {
    match client
    case Lookup => 6
    case SaveFresh => 5
    case LookupWinner => 4
    case Load(_) => 3
    case LoadWinner(_) => 3
    case SaveRetained(_) => 2
    case SaveWinner(_) => 2
    case CreateJob(_, _) => 1
    case Finished(_, _, _) => 0
    case Failed(_) => 0
  }

  /** The jobs there were stay as they were, and those that came ask for this number of sessions. */
  ghost predicate JobsGrow(s: Store, jobs: map<int, Job>, maxSessions: nat) {
    && (forall k :: k in jobs ==> k in s.jobs && s.jobs[k] == jobs[k])
    && (forall k :: k in s.jobs ==> k in jobs || s.jobs[k].maxSessions == maxSessions)
  }

  /** What a client holds is the one row and its one job. */
  ghost predicate Holds(s: Store, p: Process, maxSessions: nat) {
    match p.client
    case Lookup => p.saves == 0 && p.freshAt == None
    case SaveFresh => p.saves == 0 && p.freshAt == None
    case Load(id) => p.saves == 0 && p.freshAt == None && s.row.Some? && s.row.value.specId == id
    case SaveRetained(row) => p.saves == 0 && p.freshAt == None && s.row == Some(row)
    case LookupWinner => p.saves == 1 && s.row.Some? && p.freshAt.Some? && p.freshAt.value != s.row.value.frozenAt
    case LoadWinner(id) =>
      && p.saves == 1 && s.row.Some? && s.row.value.specId == id
      && p.freshAt.Some? && p.freshAt.value != s.row.value.frozenAt
    case SaveWinner(row) => p.saves == 1 && s.row == Some(row) && p.freshAt.Some? && p.freshAt.value != row.frozenAt
    case CreateJob(row, reused) =>
      1 <= p.saves <= 2 && s.row == Some(row) && (!reused <==> p.freshAt == Some(row.frozenAt))
    case Finished(specId, jobId, reused) =>
      && 1 <= p.saves <= 2 && s.row.Some? && s.row.value.specId == specId
      && s.row.value.frozenAt in s.jobs && s.jobs[s.row.value.frozenAt].id == jobId
      && !Refused(s.jobs, s.row.value, maxSessions)
      && (!reused <==> p.freshAt == Some(s.row.value.frozenAt))
    case Failed(error) =>
      error == IdempotencyConflict && 1 <= p.saves <= 2 && s.row.Some? && Refused(s.jobs, s.row.value, maxSessions)
  }

  ghost predicate Consistent(sys: System, first: Option<Row>, jobs: map<int, Job>) {
    && JobsGrow(sys.store, jobs, sys.maxSessions)
    && (forall i :: 0 <= i < |sys.processes| ==>
          Holds(sys.store, sys.processes[i], sys.maxSessions) &&
          (Ended(sys.processes[i].client) || Ahead(sys.processes[i].client) + sys.processes[i].turns <= 6))
    && (first.Some? ==> sys.store.row == first && sys.store.created == 0 && sys.creator == None)
    && (first.None? ==> sys.store.created == (if sys.store.row.Some? then 1 else 0))
    && (first.None? && sys.store.row.Some? ==>
          sys.creator.Some? && sys.creator.value < |sys.processes| &&
          sys.processes[sys.creator.value].freshAt == Some(sys.store.row.value.frozenAt))
    && (first.None? && sys.store.row.None? ==>
          (sys.creator == None &&
           forall i :: 0 <= i < |sys.processes| ==>
             sys.processes[i].client.Lookup? || sys.processes[i].client.SaveFresh?))
  }

  /** The acting client goes on holding what it must, and comes closer to its end. */
  lemma ActHolds(s: Store, p: Process, maxSessions: nat, c: Choice)
    requires Holds(s, p, maxSessions)
    ensures var (next, client) := Act(s, p.client, maxSessions, c);
            var q := Process(client, p.turns + 1, p.saves + (if Saves(p.client) then 1 else 0),
                             if p.client.SaveFresh? then Some(c.databaseTime) else p.freshAt);
            && Holds(next, q, maxSessions)
            && (if Ended(p.client) then client == p.client else Ahead(client) < Ahead(p.client))
  {
  }

  /** The store only gains: a row stays, a job stays. */
  lemma StoreOnlyGains(s: Store, client: Client, maxSessions: nat, c: Choice)
    ensures var next := Act(s, client, maxSessions, c).0;
            && (s.row.Some? ==> next.row == s.row && next.created == s.created)
            && (forall k :: k in s.jobs ==> k in next.jobs && next.jobs[k] == s.jobs[k])
            && (forall k :: k in next.jobs && k !in s.jobs ==> next.jobs[k].maxSessions == maxSessions)
            && (s.row.None? && next.row.Some? ==> next.created == s.created + 1 && Saves(client))
            && (s.row.None? && next.row.None? ==> next.created == s.created)
  {
  }

  /** Another client's call does not take away what a client holds. */
  lemma OthersHold(s: Store, p: Process, client: Client, maxSessions: nat, c: Choice)
    requires Holds(s, p, maxSessions)
    ensures Holds(Act(s, client, maxSessions, c).0, p, maxSessions)
  {
    hide Act;
    StoreOnlyGains(s, client, maxSessions, c);
  }

  lemma TurnConsistent(sys: System, e: Event, first: Option<Row>, jobs: map<int, Job>)
    requires Consistent(sys, first, jobs) && e.who < |sys.processes|
    ensures Consistent(Turn(sys, e), first, jobs)
  {
    hide Holds, Act;
    var p := sys.processes[e.who];
    ActHolds(sys.store, p, sys.maxSessions, e.choice);
    StoreOnlyGains(sys.store, p.client, sys.maxSessions, e.choice);
    forall i | 0 <= i < |sys.processes| && i != e.who
      ensures Holds(Turn(sys, e).store, sys.processes[i], sys.maxSessions) {
      OthersHold(sys.store, sys.processes[i], p.client, sys.maxSessions, e.choice);
    }
    CreatorTurn(sys, e, first, jobs);
  }

  /** Who inserts the row, and that nobody moves past the fresh save before it is there. */
  lemma CreatorTurn(sys: System, e: Event, first: Option<Row>, jobs: map<int, Job>)
    requires Consistent(sys, first, jobs) && e.who < |sys.processes|
    ensures var after := Turn(sys, e);
            && (first.None? && after.store.row.Some? ==>
                  after.creator.Some? && after.creator.value < |after.processes| &&
                  after.processes[after.creator.value].freshAt == Some(after.store.row.value.frozenAt))
            && (first.None? && after.store.row.None? ==>
                  (after.creator == None &&
                   (after.processes[e.who].client.Lookup? || after.processes[e.who].client.SaveFresh?)))
            && (first.Some? ==> after.creator == None)
  {
    assert Holds(sys.store, sys.processes[e.who], sys.maxSessions);
    if first.None? && sys.store.row.Some? && sys.creator.value == e.who {
      FreshTimeStays(sys, e);
    }
  }

  lemma FreshTimeStays(sys: System, e: Event)
    requires e.who < |sys.processes| && sys.processes[e.who].freshAt.Some?
    requires Holds(sys.store, sys.processes[e.who], sys.maxSessions)
    ensures Turn(sys, e).processes[e.who].freshAt == sys.processes[e.who].freshAt
  {
  }

  lemma {:induction false} RunConsistent(
      clients: nat, first: Option<Row>, jobs: map<int, Job>, maxSessions: nat, events: seq<Event>)
    requires Schedule(events, clients)
    ensures Consistent(RunSystem(Initially(clients, first, jobs, maxSessions), events), first, jobs)
  {
    hide Consistent, Turn;
    var sys := Initially(clients, first, jobs, maxSessions);
    if events == [] {
      InitiallyConsistent(clients, first, jobs, maxSessions);
    } else {
      var n := |events| - 1;
      RunConsistent(clients, first, jobs, maxSessions, events[..n]);
      TurnConsistent(RunSystem(sys, events[..n]), events[n], first, jobs);
    }
  }

  lemma InitiallyConsistent(clients: nat, first: Option<Row>, jobs: map<int, Job>, maxSessions: nat)
    ensures Consistent(Initially(clients, first, jobs, maxSessions), first, jobs)
  {
  }

  // ------------------------------------------------------------------ the theorems

  /** Once every client had six turns all are finished with one specification and one job, nobody saved more
      than twice, and at most one specification was created: exactly one if there was none. Only a job that was
      there under the same digest for another number of sessions makes them fail, and then it fails them all. */
  lemma AllClientsAgree(
      clients: nat, first: Option<Row>, jobs: map<int, Job>, maxSessions: nat, events: seq<Event>)
    requires clients > 0 && Schedule(events, clients)
    requires var after := RunSystem(Initially(clients, first, jobs, maxSessions), events);
             forall i :: 0 <= i < clients ==> after.processes[i].turns >= 6
    ensures var after := RunSystem(Initially(clients, first, jobs, maxSessions), events);
            && after.store.row.Some? && after.store.row.value.frozenAt in after.store.jobs
            && after.store.created == (if first.Some? then 0 else 1)
            && forall i :: 0 <= i < clients ==>
                 var p := after.processes[i];
                 && p.saves <= 2
                 && (if Refused(jobs, after.store.row.value, maxSessions) then p.client == Failed(IdempotencyConflict)
                     else
                       && p.client.Finished?
                       && p.client.specId == after.store.row.value.specId
                       && p.client.jobId == after.store.jobs[after.store.row.value.frozenAt].id
                       && (!p.client.reused <==> p.freshAt == Some(after.store.row.value.frozenAt)))
  {
    hide RunSystem;
    RunConsistent(clients, first, jobs, maxSessions, events);
    var after := RunSystem(Initially(clients, first, jobs, maxSessions), events);
    SettingStays(Initially(clients, first, jobs, maxSessions), events);
    forall i | 0 <= i < clients
      ensures Ended(after.processes[i].client) && Holds(after.store, after.processes[i], maxSessions) {
      var p := after.processes[i];
      assert Ended(p.client) || Ahead(p.client) + p.turns <= 6;
    }
    assert Holds(after.store, after.processes[0], maxSessions);
  }

  lemma {:induction false} SettingStays(sys: System, events: seq<Event>)
    requires Schedule(events, |sys.processes|)
    ensures RunSystem(sys, events).maxSessions == sys.maxSessions
  {
    if events != [] {
      SettingStays(sys, events[..|events| - 1]);
    }
  }

  /** Clients that report a specification of their own. */
  function Reporters(sys: System): set<nat> {
    set i | 0 <= i < |sys.processes| && sys.processes[i].client.Finished? && !sys.processes[i].client.reused
  }

  /** Where none existed, one client created the specification and reports so. It is the only one exactly
      when no other client's fresh save was stamped with the very database time that was retained. */
  lemma OneReporterUnlessStampsCollide(
      clients: nat, jobs: map<int, Job>, maxSessions: nat, events: seq<Event>)
    requires clients > 0 && Schedule(events, clients)
    requires var after := RunSystem(Initially(clients, None, jobs, maxSessions), events);
             forall i :: 0 <= i < clients ==> after.processes[i].turns >= 6
    ensures var after := RunSystem(Initially(clients, None, jobs, maxSessions), events);
            && after.creator.Some? && after.store.row.Some?
            && (if Refused(jobs, after.store.row.value, maxSessions) then Reporters(after) == {}
                else
                  && after.creator.value in Reporters(after)
                  && (Reporters(after) == {after.creator.value} <==>
                      forall i :: 0 <= i < clients && i != after.creator.value ==>
                        after.processes[i].freshAt != Some(after.store.row.value.frozenAt)))
  {
    hide RunSystem;
    AllClientsAgree(clients, None, jobs, maxSessions, events);
    RunConsistent(clients, None, jobs, maxSessions, events);
    var after := RunSystem(Initially(clients, None, jobs, maxSessions), events);
    var c := after.creator.value;
    if Refused(jobs, after.store.row.value, maxSessions) {
      return;
    }
    assert c in Reporters(after);
    if forall i :: 0 <= i < clients && i != c ==> after.processes[i].freshAt != Some(after.store.row.value.frozenAt) {
      forall i ensures i in Reporters(after) <==> i in {c} {
      }
    } else {
      var i :| 0 <= i < clients && i != c && after.processes[i].freshAt == Some(after.store.row.value.frozenAt);
      assert i in Reporters(after);
    }
  }

  /** Where a specification existed before, nobody reports one of its own. */
  lemma NobodyReportsWhereOneExisted(
      clients: nat, first: Row, jobs: map<int, Job>, maxSessions: nat, events: seq<Event>)
    requires Schedule(events, clients)
    ensures Reporters(RunSystem(Initially(clients, Some(first), jobs, maxSessions), events)) == {}
    ensures RunSystem(Initially(clients, Some(first), jobs, maxSessions), events).store.row == Some(first)
  {
    RunConsistent(clients, Some(first), jobs, maxSessions, events);
    NoFreshSaves(clients, first, jobs, maxSessions, events);
  }

  lemma {:induction false} NoFreshSaves(
      clients: nat, first: Row, jobs: map<int, Job>, maxSessions: nat, events: seq<Event>)
    requires Schedule(events, clients)
    ensures var after := RunSystem(Initially(clients, Some(first), jobs, maxSessions), events);
            forall i :: 0 <= i < clients ==> after.processes[i].freshAt == None && !after.processes[i].client.SaveFresh?
  {
    hide Consistent;
    if events != [] {
      var n := |events| - 1;
      NoFreshSaves(clients, first, jobs, maxSessions, events[..n]);
      RunConsistent(clients, Some(first), jobs, maxSessions, events[..n]);
      var sys := RunSystem(Initially(clients, Some(first), jobs, maxSessions), events[..n]);
      assert sys.store.row == Some(first) by { RowStays(sys, first, jobs); }
    }
  }

  lemma RowStays(sys: System, first: Row, jobs: map<int, Job>)
    requires Consistent(sys, Some(first), jobs)
    ensures sys.store.row == Some(first)
  {
  }

  /** Two fresh saves in one millisecond: both clients report a specification of their own. */
  lemma CollidingStamps(t: int)
    ensures var c := Choice(t, 7, 9);
            var events := [Event(0, c), Event(1, c), Event(0, c), Event(1, c), Event(0, c), Event(1, c)];
            Reporters(RunSystem(Initially(2, None, map[], 5), events)) == {0, 1}
  {
    hide Reporters, Turn, RunSystem;
    CollidingRun(t);
    TwoReporters(t);
  }

  lemma TwoReporters(t: int)
    ensures Reporters(Pair(Store(Some(Row(7, t)), map[t := Job(9, 5)], 1),
                           Process(Finished(7, 9, false), 3, 1, Some(t)), Some(0))) == {0, 1}
  {
  }

  lemma CollidingRun(t: int)
    ensures var c := Choice(t, 7, 9);
            var events := [Event(0, c), Event(1, c), Event(0, c), Event(1, c), Event(0, c), Event(1, c)];
            RunSystem(Initially(2, None, map[], 5), events) ==
            Pair(Store(Some(Row(7, t)), map[t := Job(9, 5)], 1), Process(Finished(7, 9, false), 3, 1, Some(t)), Some(0))
  {
    hide TurnBoth, Turn, RunSystem;
    var c := Choice(t, 7, 9);
    var sys := Initially(2, None, map[], 5);
    var two := [Event(0, c), Event(1, c)];
    NoTurn(sys);
    TwoTurns(sys, [], c);
    assert [] + two == two;
    BothLookUp(t);
    TwoTurns(sys, two, c);
    BothSave(t);
    TwoTurns(sys, two + two, c);
    BothCreateTheJob(t);
    assert two + two + two == [Event(0, c), Event(1, c), Event(0, c), Event(1, c), Event(0, c), Event(1, c)];
  }

  function Pair(store: Store, p: Process, creator: Option<nat>): System { System(store, [p, p], 5, creator) }

  function TurnBoth(sys: System, c: Choice): System
    requires |sys.processes| == 2
  {
    Turn(Turn(sys, Event(0, c)), Event(1, c))
  }

  lemma BothLookUp(t: int)
    ensures TurnBoth(Initially(2, None, map[], 5), Choice(t, 7, 9)) ==
            Pair(Store(None, map[], 0), Process(SaveFresh, 1, 0, None), None)
  {
  }

  lemma BothSave(t: int)
    ensures TurnBoth(Pair(Store(None, map[], 0), Process(SaveFresh, 1, 0, None), None), Choice(t, 7, 9)) ==
            Pair(Store(Some(Row(7, t)), map[], 1), Process(CreateJob(Row(7, t), false), 2, 1, Some(t)), Some(0))
  {
  }

  lemma BothCreateTheJob(t: int)
    ensures var saved := Process(CreateJob(Row(7, t), false), 2, 1, Some(t));
            TurnBoth(Pair(Store(Some(Row(7, t)), map[], 1), saved, Some(0)), Choice(t, 7, 9)) ==
            Pair(Store(Some(Row(7, t)), map[t := Job(9, 5)], 1), Process(Finished(7, 9, false), 3, 1, Some(t)), Some(0))
  {
  }

  lemma NoTurn(sys: System)
    ensures RunSystem(sys, []) == sys
  {
  }

  lemma TwoTurns(sys: System, events: seq<Event>, c: Choice)
    requires |sys.processes| == 2 && Schedule(events, 2)
    ensures Schedule(events + [Event(0, c), Event(1, c)], 2)
    ensures RunSystem(sys, events + [Event(0, c), Event(1, c)]) == TurnBoth(RunSystem(sys, events), c)
  {
    RunOne(sys, events, Event(0, c));
    RunOne(sys, events + [Event(0, c)], Event(1, c));
    assert events + [Event(0, c), Event(1, c)] == events + [Event(0, c)] + [Event(1, c)];
  }

  lemma RunOne(sys: System, events: seq<Event>, e: Event)
    requires Schedule(events, |sys.processes|) && e.who < |sys.processes|
    ensures Schedule(events + [e], |sys.processes|)
    ensures RunSystem(sys, events + [e]) == Turn(RunSystem(sys, events), e)
  {
    assert (events + [e])[..|events|] == events;
  }
}
