/** The index worker as an object: it claims a batch, projects each claim and acks or fails it. Every call it makes
    is a step of the world of writers and workers, so all that holds of runs holds of it. */
module IndexWorker {
  import opened Domain
  import opened Tables
  import opened StoreRuns
  import opened Repository
  import opened Outbox
  import opened Projection
  import opened ProjectionTheorems

  class ProjectionGraph {
    var refs: set<Located>

    constructor ()
      ensures refs == {}
    {
      refs := {};
    }
  }

  class IndexState {
    var checkpoints: map<FactKey, Checkpoint>

    constructor ()
      ensures checkpoints == map[]
    {
      checkpoints := map[];
    }

    method Get(f: FactKey) returns (entry: Option<Checkpoint>)
      ensures entry == if f in checkpoints then Some(checkpoints[f]) else None
    {
      return if f in checkpoints then Some(checkpoints[f]) else None;
    }

    method PutIfNewer(f: FactKey, entry: Checkpoint) returns (newer: bool)
      modifies this
      ensures checkpoints == Projection.PutIfNewer(old(checkpoints), f, entry)
      ensures newer <==> f !in old(checkpoints) || old(checkpoints)[f].version < entry.version
    {
      if f in checkpoints && entry.version <= checkpoints[f].version {
        return false;
      }
      checkpoints := checkpoints[f := entry];
      return true;
    }
  }

  // ---- steps as equations -----------------------------------------------------------------

  lemma RunMore(k: Config, w: World, steps: seq<Step>, m: World, s: Step)
    requires Open(m.tables) && WorldInv(k.graph, w) && m == Run(k, w, steps)
    ensures Run(k, w, steps + [s]) == Next(k, m, s)
  {
    hide WorldInv, Next, Open;
    var more := steps + [s];
    assert more != [] && more[..|more| - 1] == steps && more[|more| - 1] == s;
  }

  ghost predicate AtPc(w: World, c: ClaimedChange, pc: Pc) {
    c in w.workers && w.workers[c] == pc && c.event in w.tables.events
  }

  function MoveTo(w: World, c: ClaimedChange, pc: Pc): World {
    w.(workers := w.workers[c := pc])
  }

  lemma ClaimedIsStored(g: GraphSettings, w: World, c: ClaimedChange)
    requires WorldInv(g, w) && c in w.workers
    ensures c.event in w.tables.events
  {
    assert WorkerOk(g, w, c);
  }

  lemma ReadStep(k: Config, w: World, c: ClaimedChange)
    requires Open(w.tables) && AtPc(w, c, Claimed)
    ensures var r := GetFact(w.tables, w.tables.events[c.event].fact);
            Next(k, w, Proceed(c, 0)) == MoveTo(w, c, if r.Ok? then HeadRead(r.value) else Failing)
  {
    hide GetFact;
  }

  lemma CompareStep(k: Config, w: World, c: ClaimedChange, fact: FactRecord)
    requires Open(w.tables) && AtPc(w, c, HeadRead(fact))
    ensures var f := w.tables.events[c.event].fact;
            var previous := if f in w.checkpoints then Some(w.checkpoints[f]) else None;
            Next(k, w, Proceed(c, 0)) ==
            MoveTo(w, c, if previous.Some? && previous.value.version >= fact.revision then Acking else Inserting(fact, previous, 0))
  {
  }

  lemma InsertStep(k: Config, w: World, c: ClaimedChange, fact: FactRecord, previous: Option<Checkpoint>, n: nat)
    requires Open(w.tables) && AtPc(w, c, Inserting(fact, previous, n))
    ensures var entry := EntryFor(k.graph, fact, c.event);
            Next(k, w, Proceed(c, 0)) ==
            if n < |entry.refs| then
              MoveTo(w, c, Inserting(fact, previous, n + 1)).(graph := w.graph + {Located(entry.partition, entry.refs[n])})
            else MoveTo(w, c, Deleting(fact, previous, 0))
  {
    hide EntryFor;
  }

  lemma DeleteStep(k: Config, w: World, c: ClaimedChange, fact: FactRecord, previous: Option<Checkpoint>, n: nat)
    requires Open(w.tables) && AtPc(w, c, Deleting(fact, previous, n))
    ensures Next(k, w, Proceed(c, 0)) ==
            if previous.Some? && n < |previous.value.refs| then
              MoveTo(w, c, Deleting(fact, previous, n + 1)).(
                graph := w.graph - {Located(previous.value.partition, previous.value.refs[n])})
            else MoveTo(w, c, Putting(fact))
  {
  }

  lemma PutStep(k: Config, w: World, c: ClaimedChange, fact: FactRecord)
    requires Open(w.tables) && AtPc(w, c, Putting(fact))
    ensures Next(k, w, Proceed(c, 0)) ==
            MoveTo(w, c, Acking).(checkpoints := Projection.PutIfNewer(w.checkpoints, w.tables.events[c.event].fact, EntryFor(k.graph, fact, c.event)))
  {
    hide EntryFor;
  }

  lemma RaiseStep(k: Config, w: World, c: ClaimedChange)
    requires Open(w.tables) && c in w.workers
    ensures Next(k, w, Raise(c)) == MoveTo(w, c, Failing)
  {
  }

  // ---- the worker -------------------------------------------------------------------------

  class IndexWorker {
    const feed: ChangeFeed
    const repository: FactRepository
    const graph: ProjectionGraph
    const state: IndexState
    const settings: GraphSettings
    const consumer: string
    ghost var workers: map<ClaimedChange, Pc>

    constructor (feed: ChangeFeed, repository: FactRepository, graph: ProjectionGraph, state: IndexState,
                 settings: GraphSettings, consumer: string, ghost workers: map<ClaimedChange, Pc>)
      requires feed.database == repository.database
      ensures Valid() && this.workers == workers && this.feed == feed && this.repository == repository
      ensures this.graph == graph && this.state == state && this.settings == settings
    {
      this.feed, this.repository, this.graph, this.state := feed, repository, graph, state;
      this.settings, this.consumer, this.workers := settings, consumer, workers;
    }

    ghost predicate Valid() {
      feed.database == repository.database
    }

    ghost function Rules(): Config {
      Config(repository.policy, settings, feed.maxAttempts)
    }

    /** The world as this worker finds it; workers also lists the claims other workers hold. */
    ghost function Now(): World
      reads this, feed.database, graph, state
    {
      World(feed.database.Snapshot(), state.checkpoints, graph.refs, workers)
    }

    /** Writes the new refs, one call each; false when a call fails, after budget calls. */
    method InsertRefs(c: ClaimedChange, fact: FactRecord, previous: Option<Checkpoint>, budget: nat, ghost w: World, ghost before: seq<Step>)
      returns (ok: bool, left: nat, ghost steps: seq<Step>)
      requires Valid() && WorldInv(settings, w) && Now() == Run(Rules(), w, before)
      requires AtPc(Now(), c, Inserting(fact, previous, 0))
      modifies this`workers, graph
      ensures Now() == Run(Rules(), w, steps)
      ensures workers == old(workers)[c := if ok then Deleting(fact, previous, 0) else Failing]
    {
      hide WorldInv, Next, Run, EntryFor;
      var entry := EntryFor(settings, fact, c.event);
      steps, left := before, budget;
      for n := 0 to |entry.refs|
        invariant Now() == Run(Rules(), w, steps) && workers == old(workers)[c := Inserting(fact, previous, n)]
      {
        ghost var m := Now();
        Worldly(settings, m);
        if left == 0 {
          RaiseStep(Rules(), m, c);
          RunMore(Rules(), w, steps, m, Raise(c));
          workers, steps := workers[c := Failing], steps + [Raise(c)];
          return false, 0, steps;
        }
        InsertStep(Rules(), m, c, fact, previous, n);
        RunMore(Rules(), w, steps, m, Proceed(c, 0));
        graph.refs := graph.refs + {Located(entry.partition, entry.refs[n])};
        workers, steps, left := workers[c := Inserting(fact, previous, n + 1)], steps + [Proceed(c, 0)], left - 1;
      }
      ghost var m := Now();
      Worldly(settings, m);
      InsertStep(Rules(), m, c, fact, previous, |entry.refs|);
      RunMore(Rules(), w, steps, m, Proceed(c, 0));
      workers, steps := workers[c := Deleting(fact, previous, 0)], steps + [Proceed(c, 0)];
      return true, left, steps;
    }

    /** Deletes the refs of the previous entry, one call each. */
    method DeleteRefs(c: ClaimedChange, fact: FactRecord, previous: Option<Checkpoint>, budget: nat, ghost w: World, ghost before: seq<Step>)
      returns (ok: bool, left: nat, ghost steps: seq<Step>)
      requires Valid() && WorldInv(settings, w) && Now() == Run(Rules(), w, before)
      requires AtPc(Now(), c, Deleting(fact, previous, 0))
      modifies this`workers, graph
      ensures Now() == Run(Rules(), w, steps)
      ensures workers == old(workers)[c := if ok then Putting(fact) else Failing]
    {
      hide WorldInv, Next, Run;
      var refs := if previous.Some? then previous.value.refs else [];
      steps, left := before, budget;
      for n := 0 to |refs|
        invariant Now() == Run(Rules(), w, steps) && workers == old(workers)[c := Deleting(fact, previous, n)]
      {
        ghost var m := Now();
        Worldly(settings, m);
        if left == 0 {
          RaiseStep(Rules(), m, c);
          RunMore(Rules(), w, steps, m, Raise(c));
          workers, steps := workers[c := Failing], steps + [Raise(c)];
          return false, 0, steps;
        }
        DeleteStep(Rules(), m, c, fact, previous, n);
        RunMore(Rules(), w, steps, m, Proceed(c, 0));
        graph.refs := graph.refs - {Located(previous.value.partition, refs[n])};
        workers, steps, left := workers[c := Deleting(fact, previous, n + 1)], steps + [Proceed(c, 0)], left - 1;
      }
      ghost var m := Now();
      Worldly(settings, m);
      DeleteStep(Rules(), m, c, fact, previous, |refs|);
      RunMore(Rules(), w, steps, m, Proceed(c, 0));
      workers, steps := workers[c := Putting(fact)], steps + [Proceed(c, 0)];
      return true, left, steps;
    }

    /** Reads the head and the checkpoint; the fact to project if the checkpoint is behind. */
    method ReadHead(c: ClaimedChange, ghost w: World, ghost before: seq<Step>)
      returns (fact: Option<FactRecord>, previous: Option<Checkpoint>, ok: bool, ghost steps: seq<Step>)
      requires Valid() && WorldInv(settings, w) && Now() == Run(Rules(), w, before)
      requires AtPc(Now(), c, Claimed)
      modifies this`workers
      ensures Now() == Run(Rules(), w, steps)
      ensures workers == old(workers)[c := if fact.Some? then Inserting(fact.value, previous, 0) else if ok then Acking else Failing]
      ensures fact.Some? ==> fact.value.key == feed.database.events[c.event].fact
    {
      hide WorldInv, Next, Run, EntryFor;
      ghost var m := Now();
      Worldly(settings, m);
      OpenReads(m.tables);
      var f := feed.database.events[c.event].fact;
      var r := repository.Get(f);
      ReadStep(Rules(), m, c);
      RunMore(Rules(), w, before, m, Proceed(c, 0));
      steps := before + [Proceed(c, 0)];
      workers := workers[c := if r.Ok? then HeadRead(r.value) else Failing];
      if r.Err? {
        return None, None, false, steps;
      }
      m := Now();
      Worldly(settings, m);
      previous := state.Get(f);
      CompareStep(Rules(), m, c, r.value);
      RunMore(Rules(), w, steps, m, Proceed(c, 0));
      steps := steps + [Proceed(c, 0)];
      if previous.Some? && previous.value.version >= r.value.revision {
        workers := workers[c := Acking];
        return None, previous, true, steps;
      }
      workers := workers[c := Inserting(r.value, previous, 0)];
      return Some(r.value), previous, true, steps;
    }

    /** Writes the checkpoint; false when the call fails. */
    method Put(c: ClaimedChange, fact: FactRecord, left: nat, ghost w: World, ghost before: seq<Step>) returns (ok: bool, ghost steps: seq<Step>)
      requires Valid() && WorldInv(settings, w) && Now() == Run(Rules(), w, before)
      requires AtPc(Now(), c, Putting(fact))
      modifies this`workers, state
      ensures Now() == Run(Rules(), w, steps)
      ensures workers == old(workers)[c := if ok then Acking else Failing]
    {
      hide WorldInv, Next, Run, EntryFor;
      ghost var m := Now();
      Worldly(settings, m);
      if left == 0 {
        RaiseStep(Rules(), m, c);
        RunMore(Rules(), w, before, m, Raise(c));
        workers := workers[c := Failing];
        return false, before + [Raise(c)];
      }
      PutStep(Rules(), m, c, fact);
      RunMore(Rules(), w, before, m, Proceed(c, 0));
      var newer := state.PutIfNewer(feed.database.events[c.event].fact, EntryFor(settings, fact, c.event));
      workers := workers[c := Acking];
      return true, before + [Proceed(c, 0)];
    }

    /** Projects the current head of the claimed event's fact; false when a call fails, after budget graph calls. */
    method Project(c: ClaimedChange, budget: nat, ghost w: World, ghost before: seq<Step>) returns (ok: bool, ghost steps: seq<Step>)
      requires Valid() && WorldInv(settings, w) && Now() == Run(Rules(), w, before)
      requires AtPc(Now(), c, Claimed)
      modifies this`workers, graph, state
      ensures Now() == Run(Rules(), w, steps)
      ensures workers == old(workers)[c := if ok then Acking else Failing]
    {
      hide WorldInv, Run;
      var fact, previous, left;
      fact, previous, ok, steps := ReadHead(c, w, before);
      if fact.None? {
        return;
      }
      ok, left, steps := InsertRefs(c, fact.value, previous, budget, w, steps);
      if !ok {
        return;
      }
      ok, left, steps := DeleteRefs(c, fact.value, previous, left, w, steps);
      if !ok {
        return;
      }
      ok, steps := Put(c, fact.value, left, w, steps);
    }

    /** Acks a projected claim, or releases one that failed or whose lease was lost. */
    method Finish(c: ClaimedChange, projected: bool, retryAt: Time, now: Time, ghost w: World, ghost before: seq<Step>)
      returns (succeeded: bool, ghost steps: seq<Step>)
      requires Valid() && WorldInv(settings, w) && Now() == Run(Rules(), w, before)
      requires AtPc(Now(), c, if projected then Acking else Failing)
      modifies this`workers, feed.database
      ensures Now() == Run(Rules(), w, steps)
      ensures workers == old(workers) - {c}
      ensures Ends(old(feed.database.events), feed.database.events, c.event, succeeded, now)
    {
      hide WorldInv, Next, Run;
      steps := before;
      succeeded := false;
      ghost var m := Now();
      Worldly(settings, m);
      if projected {
        succeeded := feed.Ack([c], now);
        OneAck(m.tables.events, c, now);
        AckStep(Rules(), m, c, now);
        RunMore(Rules(), w, steps, m, Proceed(c, now));
        steps := steps + [Proceed(c, now)];
        workers := if succeeded then workers - {c} else workers[c := Failing];
        if succeeded {
          return;
        }
        m := Now();
        Worldly(settings, m);
      }
      var released := feed.Fail(c, retryAt, now);
      ReleasedStep(Rules(), m, c, retryAt, now);
      RunMore(Rules(), w, steps, m, Release(c, retryAt, now));
      steps := steps + [Release(c, retryAt, now)];
      workers := workers - {c};
    }

    /** Claims a batch: a step of the world, unless nothing can be claimed. */
    method StartBatch(limit: int, leaseUntil: Time, now: Time, lockedRows: set<Uuid>)
      returns (r: Result<seq<ClaimedChange>>, ghost steps: seq<Step>)
      requires Valid() && WorldInv(settings, Now())
      modifies this`workers, feed.database
      ensures Now() == Run(Rules(), old(Now()), steps)
      ensures r.Err? <==> limit < 1 || leaseUntil <= now
      ensures r.Err? ==> Now() == old(Now())
      ensures r.Ok? ==> IsBatch(old(feed.database.events), limit, now, lockedRows, r.value)
                        && (forall c <- r.value :: c.consumer == consumer && c.token == old(feed.database.uuids))
                        && workers == old(workers) + Waiting(r.value, 0) && AllNew(old(workers), r.value)
                        && Unfinished(feed.database.events, r.value, 0)
    {
      hide WorldInv, Next, Run, Waiting, FirstRows;
      ghost var w := Now();
      RunNone(Rules(), w);
      Worldly(settings, w);
      TokensAreOld(settings, w);
      NoneWait(workers, []);
      r := feed.Claim(consumer, limit, leaseUntil, now, lockedRows);
      if r.Err? || r.value == [] {
        return r, [];
      }
      var claims := r.value;
      Granted(Rules(), w, claims, consumer, leaseUntil, now, limit, lockedRows);
      ghost var chosen := set e <- EventsOf(claims);
      RunMore(Rules(), w, [], w, Grant(chosen, consumer, leaseUntil, now));
      LeasedAreUnfinished(w.tables.events, claims, limit, now, lockedRows, Lease(consumer, w.tables.uuids, leaseUntil));
      workers := GrantStep(w, chosen, consumer, leaseUntil).workers;
      return r, [] + [Grant(chosen, consumer, leaseUntil, now)];
    }

    method Handle(c: ClaimedChange, budget: nat, retryAt: Time, now: Time, ghost w: World, ghost before: seq<Step>)
      returns (succeeded: bool, ghost steps: seq<Step>)
      requires Valid() && WorldInv(settings, w) && Now() == Run(Rules(), w, before)
      requires c in workers && workers[c] == Claimed
      modifies this`workers, graph, state, feed.database
      ensures Now() == Run(Rules(), w, steps)
      ensures workers == old(workers) - {c}
      ensures Ends(old(feed.database.events), feed.database.events, c.event, succeeded, now)
    {
      hide WorldInv, Run;
      ClaimedIsStored(settings, Now(), c);
      var projected;
      projected, steps := Project(c, budget, w, before);
      ClaimedIsStored(settings, Now(), c);
      succeeded, steps := Finish(c, projected, retryAt, now, w, steps);
    }

    /** One batch: the first claimable events are claimed, each claim ends acked or failed, and exactly the successes
        are processed. The whole batch is a run of the world. */
    method RunOnce(limit: int, leaseUntil: Time, now: Time, lockedRows: set<Uuid>, retryAt: Time, budgets: nat -> nat)
      returns (r: Result<Batch>, ghost claims: seq<ClaimedChange>, ghost steps: seq<Step>)
      requires Valid() && WorldInv(settings, Now())
      modifies this`workers, graph, state, feed.database
      ensures Now() == Run(Rules(), old(Now()), steps) && workers == old(workers)
      ensures r.Err? <==> limit < 1 || leaseUntil <= now
      ensures r.Err? ==> Now() == old(Now())
      ensures r.Ok? ==>
                && IsBatch(old(feed.database.events), limit, now, lockedRows, claims)
                && r.value.claimed == |claims| == r.value.succeeded + r.value.failed
                && r.value.succeeded == |Processed(feed.database.events, claims, now)|
    {
      hide WorldInv, Run, Waiting, AllNew, IsBatch, Unfinished, Processed;
      ghost var w := Now();
      var started;
      started, steps := StartBatch(limit, leaseUntil, now, lockedRows);
      if started.Err? {
        return Err(started.error), [], steps;
      }
      claims := started.value;
      BatchIsDistinct(w.tables.events, limit, now, lockedRows, claims);
      var succeeded: nat, failed: nat := 0, 0;
      NoneProcessed(feed.database.events, claims, now);
      for n := 0 to |started.value|
        invariant Now() == Run(Rules(), w, steps) && succeeded + failed == n
        invariant workers == w.workers + Waiting(claims, n)
        invariant Unfinished(feed.database.events, claims, n)
        invariant succeeded == |Processed(feed.database.events, claims[..n], now)|
      {
        var c := started.value[n];
        NextWaits(w.workers, claims, n);
        ghost var events := feed.database.events;
        var done;
        done, steps := Handle(c, budgets(n), retryAt, now, w, steps);
        OneMoreEnded(events, feed.database.events, claims, n, done, now);
        if done {
          succeeded := succeeded + 1;
        } else {
          failed := failed + 1;
        }
      }
      NoneWait(w.workers, claims);
      assert claims[..|claims|] == claims;
      r := Ok(Batch(|started.value|, succeeded, failed));
    }
  }

  // ---- what a batch does to the events ----------------------------------------------------

  datatype Batch = Batch(claimed: nat, succeeded: nat, failed: nat)

  /** claims lease the first claimable events, up to the limit, that nobody else has locked. */
  ghost predicate IsBatch(events: map<Uuid, Event>, limit: int, now: Time, lockedRows: set<Uuid>, claims: seq<ClaimedChange>) {
    && limit >= 1
    && FirstRows(events, (set e <- events | Claimable(events, e, now) && e !in lockedRows), limit, EventsOf(claims))
  }

  /** One event was handled: it is processed if that succeeded, and no other event changed. */
  ghost predicate Ends(events: map<Uuid, Event>, after: map<Uuid, Event>, e: Uuid, succeeded: bool, now: Time) {
    && e in events && after.Keys == events.Keys
    && (forall d <- events :: d != e ==> after[d] == events[d])
    && after[e].processedAt == if succeeded then Some(now) else events[e].processedAt
  }

  /** The events of the claims from the n-th on are not processed. */
  ghost predicate Unfinished(events: map<Uuid, Event>, claims: seq<ClaimedChange>, n: nat) {
    && (forall c <- claims :: c.event in events)
    && (forall i :: n <= i < |claims| ==> events[claims[i].event].processedAt.None?)
  }

  ghost function Processed(events: map<Uuid, Event>, claims: seq<ClaimedChange>, now: Time): set<Uuid> {
    set c <- claims | c.event in events && events[c.event].processedAt == Some(now) :: c.event
  }

  ghost predicate DistinctEvents(claims: seq<ClaimedChange>) {
    forall i, j :: 0 <= i < j < |claims| ==> claims[i].event != claims[j].event
  }

  lemma BatchIsDistinct(events: map<Uuid, Event>, limit: int, now: Time, lockedRows: set<Uuid>, claims: seq<ClaimedChange>)
    requires IsBatch(events, limit, now, lockedRows, claims)
    ensures DistinctEvents(claims)
  {
    var rows := EventsOf(claims);
    forall i, j | 0 <= i < j < |claims| ensures claims[i].event != claims[j].event {
      assert rows[i] in rows && rows[j] in rows;
      assert Earlier(events, rows[i], rows[j]);
    }
  }

  lemma LeasedAreUnfinished(events: map<Uuid, Event>, claims: seq<ClaimedChange>, limit: int, now: Time, lockedRows: set<Uuid>, lease: Lease)
    requires IsBatch(events, limit, now, lockedRows, claims)
    ensures Unfinished(LeaseAll(events, (set e <- EventsOf(claims)), lease), claims, 0)
  {
    var rows := EventsOf(claims);
    forall c <- claims ensures c.event in events && events[c.event].processedAt.None? {
      var i :| 0 <= i < |claims| && claims[i] == c;
      assert rows[i] in rows;
    }
  }

  lemma NoneProcessed(events: map<Uuid, Event>, claims: seq<ClaimedChange>, now: Time)
    ensures Processed(events, claims[..0], now) == {}
  {
  }

  lemma OneMoreEnded(events: map<Uuid, Event>, after: map<Uuid, Event>, claims: seq<ClaimedChange>, n: nat, succeeded: bool, now: Time)
    requires n < |claims| && DistinctEvents(claims) && Unfinished(events, claims, n)
    requires Ends(events, after, claims[n].event, succeeded, now)
    ensures Unfinished(after, claims, n + 1)
    ensures |Processed(after, claims[..n + 1], now)| == |Processed(events, claims[..n], now)| + if succeeded then 1 else 0
  {
    var e := claims[n].event;
    assert claims[..n + 1] == claims[..n] + [claims[n]];
    forall c <- claims[..n] ensures c.event != e && c in claims {
    }
    assert e !in Processed(events, claims[..n], now);
    assert Processed(after, claims[..n + 1], now) == Processed(events, claims[..n], now) + if succeeded then {e} else {};
  }

  lemma RunNone(k: Config, w: World)
    requires WorldInv(k.graph, w)
    ensures Run(k, w, []) == w
  {
    hide WorldInv, Next;
  }

  lemma OpenReads(t: Tables)
    requires Open(t)
    ensures HeadsHaveRevisions(t)
  {
  }

  lemma OneAck(events: map<Uuid, Event>, c: ClaimedChange, now: Time)
    ensures var owned := set x <- [c] | Owns(events, x) :: x.event;
            && |owned| == (if Owns(events, c) then 1 else 0)
            && (Owns(events, c) ==>
                  AckAll(events, owned, now) == events[c.event := Acked(events[c.event], now)])
  {
    var owned := set x <- [c] | Owns(events, x) :: x.event;
    assert c in [c];
    assert owned == if Owns(events, c) then {c.event} else {};
  }

  lemma AckStep(k: Config, w: World, c: ClaimedChange, now: Time)
    requires Open(w.tables) && AtPc(w, c, Acking)
    ensures Next(k, w, Proceed(c, now)) ==
            if Owns(w.tables.events, c) then
              WithEvents(w, w.tables.events[c.event := Acked(w.tables.events[c.event], now)]).(workers := w.workers - {c})
            else MoveTo(w, c, Failing)
  {
    hide Owns;
  }

  lemma ReleasedStep(k: Config, w: World, c: ClaimedChange, retryAt: Time, now: Time)
    requires Open(w.tables) && c in w.workers && w.workers[c] == Failing
    ensures Next(k, w, Release(c, retryAt, now)) ==
            (if Owns(w.tables.events, c) then
               WithEvents(w, w.tables.events[c.event := Failed(w.tables.events[c.event], retryAt, now, k.maxAttempts)])
             else w).(workers := w.workers - {c})
  {
  }

  lemma TokensAreOld(g: GraphSettings, w: World)
    requires WorldInv(g, w)
    ensures forall c <- w.workers :: c.token < w.tables.uuids
  {
    forall c <- w.workers ensures c.token < w.tables.uuids {
      assert WorkerOk(g, w, c);
    }
  }

  /** The claims from the n-th on, still waiting for the worker. */
  ghost function Waiting(claims: seq<ClaimedChange>, n: nat): map<ClaimedChange, Pc> {
    map i | n <= i < |claims| :: claims[i] := Claimed
  }

  ghost predicate AllNew(workers: map<ClaimedChange, Pc>, claims: seq<ClaimedChange>) {
    && (forall i, j :: 0 <= i < j < |claims| ==> claims[i] != claims[j])
    && (forall c <- claims :: c !in workers)
  }

  lemma NextWaits(workers: map<ClaimedChange, Pc>, claims: seq<ClaimedChange>, n: nat)
    requires n < |claims| && AllNew(workers, claims)
    ensures var now := workers + Waiting(claims, n);
            && claims[n] in now && now[claims[n]] == Claimed
            && now - {claims[n]} == workers + Waiting(claims, n + 1)
  {
    assert claims[n] in claims;
    WaitingLess(claims, n);
    hide AllNew, Waiting;
    TakesOut(workers, Waiting(claims, n + 1), claims[n]);
  }

  lemma TakesOut(workers: map<ClaimedChange, Pc>, rest: map<ClaimedChange, Pc>, c: ClaimedChange)
    requires c !in workers && c !in rest
    ensures (workers + rest[c := Claimed]) - {c} == workers + rest
  {
  }

  lemma WaitingLess(claims: seq<ClaimedChange>, n: nat)
    requires n < |claims| && forall i, j :: 0 <= i < j < |claims| ==> claims[i] != claims[j]
    ensures claims[n] !in Waiting(claims, n + 1)
    ensures Waiting(claims, n) == Waiting(claims, n + 1)[claims[n] := Claimed]
  {
  }

  lemma DistinctClaims(events: map<Uuid, Event>, candidates: set<Uuid>, limit: nat, claims: seq<ClaimedChange>)
    requires candidates <= events.Keys && FirstRows(events, candidates, limit, EventsOf(claims))
    ensures |claims| <= limit && forall i, j :: 0 <= i < j < |claims| ==> claims[i] != claims[j]
  {
    var rows := EventsOf(claims);
    forall i, j | 0 <= i < j < |claims| ensures claims[i] != claims[j] {
      assert rows[i] in rows && rows[j] in rows;
      assert Earlier(events, rows[i], rows[j]);
    }
  }

  lemma GrantedWait(w: World, claims: seq<ClaimedChange>, consumer: string, leaseUntil: Time)
    requires forall c <- claims :: c == ClaimedChange(c.event, consumer, w.tables.uuids)
    ensures GrantStep(w, (set e <- EventsOf(claims)), consumer, leaseUntil).workers == w.workers + Waiting(claims, 0)
  {
    hide LeaseAll, Waiting, EventsOf;
    GrantedMap(claims, (set e <- EventsOf(claims)), consumer, w.tables.uuids);
  }

  lemma GrantedMap(claims: seq<ClaimedChange>, chosen: set<Uuid>, consumer: string, token: Uuid)
    requires forall c <- claims :: c == ClaimedChange(c.event, consumer, token)
    requires chosen == set e <- EventsOf(claims)
    ensures (map e <- chosen :: ClaimedChange(e, consumer, token) := Claimed) == Waiting(claims, 0)
  {
    hide Waiting, EventsOf;
    GrantedKeys(claims, consumer, token);
    AllWait(claims);
  }

  lemma GrantedKeys(claims: seq<ClaimedChange>, consumer: string, token: Uuid)
    requires forall c <- claims :: c == ClaimedChange(c.event, consumer, token)
    ensures forall c :: c in claims <==> c.event in EventsOf(claims) && c == ClaimedChange(c.event, consumer, token)
  {
    var rows := EventsOf(claims);
    forall c ensures c in claims <==> c.event in rows && c == ClaimedChange(c.event, consumer, token) {
      if c in claims {
        var i :| 0 <= i < |claims| && claims[i] == c;
        assert rows[i] in rows;
      }
    }
  }

  lemma AllWait(claims: seq<ClaimedChange>)
    ensures Waiting(claims, 0).Keys == set c <- claims
    ensures forall c <- Waiting(claims, 0) :: Waiting(claims, 0)[c] == Claimed
  {
  }

  lemma Granted(k: Config, w: World, claims: seq<ClaimedChange>, consumer: string, leaseUntil: Time, now: Time, limit: int, lockedRows: set<Uuid>)
    requires Open(w.tables) && claims != [] && limit >= 0
    requires forall c <- claims :: c == ClaimedChange(c.event, consumer, w.tables.uuids)
    requires var events := w.tables.events;
             FirstRows(events, (set e <- events | Claimable(events, e, now) && e !in lockedRows), limit, EventsOf(claims))
    ensures var chosen := set e <- EventsOf(claims);
            && Next(k, w, Grant(chosen, consumer, leaseUntil, now)) == GrantStep(w, chosen, consumer, leaseUntil)
            && GrantStep(w, chosen, consumer, leaseUntil).workers == w.workers + Waiting(claims, 0)
            && |claims| <= limit
            && forall i, j :: 0 <= i < j < |claims| ==> claims[i] != claims[j]
  {
    var rows := EventsOf(claims);
    assert rows[0] in rows;
    hide Claimable, Waiting, GrantStep, InOrder;
    DistinctClaims(w.tables.events, (set e <- w.tables.events | Claimable(w.tables.events, e, now) && e !in lockedRows), limit, claims);
    GrantedWait(w, claims, consumer, leaseUntil);
  }

  lemma NoneWait(workers: map<ClaimedChange, Pc>, claims: seq<ClaimedChange>)
    ensures workers + Waiting(claims, |claims|) == workers
  {
  }

  lemma Worldly(g: GraphSettings, w: World)
    requires WorldInv(g, w)
    ensures Open(w.tables)
  {
  }
}
