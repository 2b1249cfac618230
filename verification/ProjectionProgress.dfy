/** Nothing that happened can keep a fact from being indexed, short of the dead letter of its current version. */
module ProjectionProgress {
  import opened Domain
  import opened Tables
  import opened StoreInvariant
  import opened StoreRuns
  import opened Outbox
  import opened Projection
  import opened ProjectionTheorems

  /** How far a projection still has to go: the statements ahead of it, then the refs ahead in this one. */
  ghost function Stage(pc: Pc): nat {
    match pc
    case Claimed => 5
    case HeadRead(_) => 4
    case Inserting(_, _, _) => 3
    case Deleting(_, _, _) => 2
    case Putting(_) => 1
    case _ => 0
  }

  ghost function RefsAhead(g: GraphSettings, c: ClaimedChange, pc: Pc): nat {
    match pc
    case Inserting(fact, _, n) => Ahead(EntryFor(g, fact, c.event).refs, n)
    case Deleting(_, Some(previous), n) => Ahead(previous.refs, n)
    case _ => 0
  }

  ghost function Ahead(refs: seq<Ref>, n: nat): nat {
    if n <= |refs| then |refs| - n else 0
  }

  ghost predicate Reads(t: Tables, f: FactKey, fact: FactRecord) {
    fact.key == f && fact.revision == Version(t, f)
  }

  /** c projects the current head of f. */
  ghost predicate Projecting(w: World, c: ClaimedChange, f: FactKey) {
    && c in w.workers && c.event in w.tables.events && w.tables.events[c.event].fact == f
    && match w.workers[c]
       case Claimed => true
       case HeadRead(fact) => Reads(w.tables, f, fact)
       case Inserting(fact, _, _) => Reads(w.tables, f, fact)
       case Deleting(fact, _, _) => Reads(w.tables, f, fact)
       case Putting(fact) => Reads(w.tables, f, fact)
       case Acking => CaughtUp(w, f)
       case Failing => false
  }

  ghost predicate CaughtUp(w: World, f: FactKey) {
    f in w.checkpoints && w.checkpoints[f].version == Version(w.tables, f)
  }

  ghost predicate NotAhead(w: World, f: FactKey) {
    f in w.checkpoints ==> w.checkpoints[f].version <= Version(w.tables, f)
  }

  /** u is one statement of c further, and nothing stored about facts has changed. */
  ghost predicate Closer(g: GraphSettings, w: World, u: World, c: ClaimedChange, f: FactKey)
    requires c in w.workers
  {
    && u.tables == w.tables && Projecting(u, c, f)
    && (Stage(u.workers[c]) < Stage(w.workers[c])
        || (Stage(u.workers[c]) == Stage(w.workers[c])
            && RefsAhead(g, c, u.workers[c]) < RefsAhead(g, c, w.workers[c])))
  }

  lemma StatementGoesOn(k: Config, w: World, c: ClaimedChange, f: FactKey)
    requires Open(w.tables) && Projecting(w, c, f) && NotAhead(w, f)
    requires !w.workers[c].Acking? && (w.workers[c].Claimed? ==> f in w.tables.heads)
    ensures Closer(k.graph, w, ProceedStep(k, w, c, 0), c, f)
  {
    hide RefsOf, PartitionFor, EntryFor;
    match w.workers[c]
    case Claimed => hide Open, RefsAhead;
    case HeadRead(_) => hide GetFact, RefsAhead;
    case Inserting(_, _, _) => hide GetFact;
    case Deleting(_, _, _) => hide GetFact;
    case Putting(_) => PutCatchesUp(k, w, c, f);
  }

  lemma PutCatchesUp(k: Config, w: World, c: ClaimedChange, f: FactKey)
    requires Open(w.tables) && Projecting(w, c, f) && NotAhead(w, f) && w.workers[c].Putting?
    ensures Closer(k.graph, w, ProceedStep(k, w, c, 0), c, f)
  {
    hide GetFact, RefsOf, PartitionFor, RefsAhead;
  }

  lemma EventHasHead(t: Tables, e: Uuid)
    requires InRange(t) && Paired(t) && e in t.events
    ensures t.events[e].fact in t.heads
  {
    assert e in t.revisions;
  }

  lemma StoreHasHead(t: Tables, e: Uuid)
    requires Inv(t) && e in t.events
    ensures t.events[e].fact in t.heads
  {
    EventHasHead(t, e);
  }

  lemma ProceedsToward(k: Config, w: World, c: ClaimedChange, f: FactKey)
    requires WorldInv(k.graph, w) && Projecting(w, c, f) && !w.workers[c].Acking?
    ensures Closer(k.graph, w, Next(k, w, Proceed(c, 0)), c, f)
  {
    hide Inv, Open, LeasesOk, ClaimedInOrder, CheckpointsOk, ProcessedIsIndexed, WorkersOk, ProceedStep, Closer, Stage;
    StoreHasHead(w.tables, c.event);
    CheckpointNotAhead(k.graph, w, f);
    StatementGoesOn(k, w, c, f);
  }

  lemma CheckpointNotAhead(g: GraphSettings, w: World, f: FactKey)
    requires CheckpointsOk(g, w)
    ensures NotAhead(w, f)
  {
  }

  lemma {:induction false} CatchesUp(k: Config, w: World, c: ClaimedChange, f: FactKey) returns (steps: seq<Step>)
    requires WorldInv(k.graph, w) && Projecting(w, c, f)
    ensures Run(k, w, steps).tables == w.tables && CaughtUp(Run(k, w, steps), f)
    ensures forall s <- steps :: s.Proceed?
    decreases Stage(w.workers[c]), RefsAhead(k.graph, c, w.workers[c])
  {
    hide Inv, Open, LeasesOk, ClaimedInOrder, CheckpointsOk, ProcessedIsIndexed, WorkersOk, ProceedStep, RefsAhead;
    if w.workers[c].Acking? {
      steps := [];
      assert Run(k, w, []) == w;
    } else {
      var s := Proceed(c, 0);
      RunOne(k, w, s);
      ProceedsToward(k, w, c, f);
      var rest := CatchesUp(k, Run(k, w, [s]), c, f);
      steps := [s] + rest;
      RunThen(k, w, [s], rest);
    }
  }

  lemma {:induction false} LowestUndone(t: Tables, e: Uuid) returns (d: Uuid)
    requires Paired(t) && OneRevision(t) && e in t.events && !Done(t.events[e])
    ensures d in t.events && !Done(t.events[d]) && t.events[d].fact == t.events[e].fact
    ensures forall o <- t.events :: t.events[o].fact == t.events[e].fact && !Done(t.events[o]) ==> !Before(t.events, o, d)
    decreases t.events[e].version
  {
    if o :| o in t.events && t.events[o].fact == t.events[e].fact && !Done(t.events[o]) && t.events[o].version < t.events[e].version {
      d := LowestUndone(t, o);
    } else {
      d := e;
      forall o <- t.events | t.events[o].fact == t.events[e].fact && !Done(t.events[o]) ensures !Before(t.events, o, d) {
        assert o in t.revisions && d in t.revisions;
      }
    }
  }

  lemma GrantProjects(w: World, d: Uuid, consumer: string, until: Time, f: FactKey)
    requires d in w.tables.events && w.tables.events[d].fact == f
    ensures var u := GrantStep(w, {d}, consumer, until);
            && Projecting(u, ClaimedChange(d, consumer, w.tables.uuids), f)
            && u.tables.heads == w.tables.heads
  {
  }

  function ClaimTime(e: Event): Time {
    e.availableAt + (if e.lease.Some? then e.lease.value.until else 0) + 1
  }

  lemma LowestIsClaimable(events: map<Uuid, Event>, d: Uuid)
    requires d in events && !Done(events[d])
    requires forall o <- events :: events[o].fact == events[d].fact && !Done(events[o]) ==> !Before(events, o, d)
    ensures Claimable(events, d, ClaimTime(events[d]))
  {
    hide Before, Done;
  }

  lemma OneClaim(k: Config, w: World, d: Uuid, until: Time, now: Time)
    requires Open(w.tables) && Claimable(w.tables.events, d, now)
    ensures Next(k, w, Grant({d}, "worker", until, now)) == GrantStep(w, {d}, "worker", until)
  {
    hide Open, Claimable, GrantStep;
  }

  /** The lowest unfinished event of a fact can be claimed by anyone once its lease and its delay have run out. */
  lemma ClaimsLowest(k: Config, w: World, e: Uuid) returns (s: Step, c: ClaimedChange)
    requires Open(w.tables) && Paired(w.tables) && OneRevision(w.tables)
    requires e in w.tables.events && !Done(w.tables.events[e])
    ensures s.Grant? && Projecting(Next(k, w, s), c, w.tables.events[e].fact)
    ensures Next(k, w, s).tables.heads == w.tables.heads
  {
    hide Open, Projecting, GrantStep, Done, Paired, OneRevision, Before, Claimable, Next, ClaimTime;
    var events := w.tables.events;
    var d := LowestUndone(w.tables, e);
    LowestIsClaimable(events, d);
    var now := ClaimTime(events[d]);
    s, c := Grant({d}, "worker", now + 1, now), ClaimedChange(d, "worker", w.tables.uuids);
    OneClaim(k, w, d, now + 1, now);
    GrantProjects(w, d, "worker", now + 1, events[e].fact);
  }

  lemma StorePaired(t: Tables)
    requires Inv(t)
    ensures Paired(t) && OneRevision(t)
  {
  }

  /** From every reachable world, workers alone can bring the checkpoint of a fact to its current version, unless
      the event of that version is dead-lettered: no crash, lost lease or earlier dead letter stands in the way. */
  lemma CanAlwaysCatchUp(k: Config, w: World, f: FactKey, e: Uuid)
    requires WorldInv(k.graph, w) && f in w.tables.heads
    requires EventAt(w.tables, f, w.tables.heads[f].currentVersion, e) && w.tables.events[e].deadLetteredAt.None?
    ensures exists steps: seq<Step> ::
              && (forall s <- steps :: s.Grant? || s.Proceed?)
              && Run(k, w, steps).tables.heads == w.tables.heads
              && CaughtUp(Run(k, w, steps), f)
  {
    hide Inv, Open, LeasesOk, ClaimedInOrder, WorkersOk, IsEntry, Next, Projecting;
    if w.tables.events[e].processedAt.Some? {
      CheckpointNotAhead(k.graph, w, f);
      assert Indexed(w, e) && Run(k, w, []) == w;
    } else {
      assert Paired(w.tables) && OneRevision(w.tables) by {
        StorePaired(w.tables);
      }
      hide CheckpointsOk, ProcessedIsIndexed, Paired, OneRevision;
      var s, c := ClaimsLowest(k, w, e);
      RunOne(k, w, s);
      var rest := CatchesUp(k, Run(k, w, [s]), c, f);
      RunThen(k, w, [s], rest);
      assert forall x <- [s] + rest :: x.Grant? || x.Proceed?;
      assert Run(k, w, [s] + rest).tables.heads == w.tables.heads;
    }
  }
}
