/** Index workers as processes over the shared tables and an external graph.

    A worker holds one claim and a program counter. Any number of writers and workers interleave, one
    transaction or one graph call at a time; a worker can stop, or have its lease expire and its event
    claimed again, between any two of its steps. Clocks are arbitrary: every step is given its own time. */
module Projection {
  import opened Domain
  import opened Tables
  import opened StoreInvariant
  import opened StoreRuns
  import opened Outbox

  // ---- what a revision looks like in the graph --------------------------------------------

  datatype IngestMode = Triplet | Episode
  datatype GraphSettings = GraphSettings(mode: IngestMode, groupFor: string -> string)

  datatype Part = EpisodeNode | TagEdge(index: nat, tag: string)

  /** An identity seeded with the fact, the revision and the place in it. The seed hash is injective. */
  datatype Ref = Ref(fact: FactKey, revision: nat, part: Part)

  datatype Partition = Partition(org: OrgId, group: string)

  datatype Located = Located(partition: Partition, ref: Ref)

  function PartitionFor(g: GraphSettings, org: OrgId, namespace: string): Partition {
    Partition(org, g.groupFor(namespace))
  }

  function Labels(payload: Payload): seq<string> {
    if payload.tags == [] then [payload.namespace] else payload.tags
  }

  function RefsOf(g: GraphSettings, f: FactKey, version: nat, payload: Payload, status: Status): (refs: seq<Ref>)
    ensures forall i :: 0 <= i < |refs| ==> refs[i].fact == f && refs[i].revision == version
  {
    if status == Invalidated then []
    else match g.mode
         case Episode => [Ref(f, version, EpisodeNode)]
         case Triplet => seq(|Labels(payload)|, i requires 0 <= i < |Labels(payload)| => Ref(f, version, TagEdge(i, Labels(payload)[i])))
  }

  datatype Checkpoint = Checkpoint(version: nat, refs: seq<Ref>, partition: Partition, lastEvent: Uuid)

  function CheckpointOf(g: GraphSettings, f: FactKey, version: nat, payload: Payload, status: Status, event: Uuid): Checkpoint {
    Checkpoint(version, RefsOf(g, f, version, payload, status), PartitionFor(g, f.org, payload.namespace), event)
  }

  function EntryFor(g: GraphSettings, fact: FactRecord, event: Uuid): Checkpoint {
    CheckpointOf(g, fact.key, fact.revision, fact.payload, fact.status, event)
  }

  /** The checkpoint moves to the entry only when the entry is newer. */
  function PutIfNewer(checkpoints: map<FactKey, Checkpoint>, f: FactKey, entry: Checkpoint): map<FactKey, Checkpoint> {
    if f in checkpoints && entry.version <= checkpoints[f].version then checkpoints else checkpoints[f := entry]
  }

  // ---- worlds and steps -------------------------------------------------------------------

  datatype Pc =
    | Claimed
    | HeadRead(fact: FactRecord)
    | Inserting(fact: FactRecord, previous: Option<Checkpoint>, inserted: nat)
    | Deleting(fact: FactRecord, previous: Option<Checkpoint>, deleted: nat)
    | Putting(fact: FactRecord)
    | Acking
    | Failing

  datatype World = World(
    tables: Tables,
    checkpoints: map<FactKey, Checkpoint>,
    graph: set<Located>,
    workers: map<ClaimedChange, Pc>)

  const START := World(EMPTY, map[], {}, map[])

  datatype Config = Config(policy: ContentPolicy, graph: GraphSettings, maxAttempts: nat)

  datatype Step =
    | Write(attempt: Attempt)
    | Grant(chosen: set<Uuid>, consumer: string, until: Time, now: Time)
    | Proceed(worker: ClaimedChange, now: Time)
    | Heartbeat(worker: ClaimedChange, until: Time)
    | Raise(worker: ClaimedChange)
    | Release(worker: ClaimedChange, retryAt: Time, now: Time)
    | Crash(worker: ClaimedChange)

  function WithEvents(w: World, events: map<Uuid, Event>): World {
    w.(tables := w.tables.(events := events))
  }

  function GrantStep(w: World, chosen: set<Uuid>, consumer: string, until: Time): World {
    var token := w.tables.uuids;
    w.(
    tables := w.tables.(
      events := LeaseAll(w.tables.events, chosen, Lease(consumer, token, until)), uuids := token + 1),
    workers := w.workers + map e <- chosen :: ClaimedChange(e, consumer, token) := Claimed)
  }

  /** The next statement of the projection of one claim. */
  function ProceedStep(k: Config, w: World, c: ClaimedChange, now: Time): World
    requires Open(w.tables)
  {
    if c !in w.workers || c.event !in w.tables.events then w
    else
      var f := w.tables.events[c.event].fact;
      match w.workers[c]
      case Claimed =>
        (match GetFact(w.tables, f)
         case Ok(fact) => w.(workers := w.workers[c := HeadRead(fact)])
         case Err(_) => w.(workers := w.workers[c := Failing]))
      case HeadRead(fact) =>
        var previous := if f in w.checkpoints then Some(w.checkpoints[f]) else None;
        if previous.Some? && previous.value.version >= fact.revision then w.(workers := w.workers[c := Acking])
        else w.(workers := w.workers[c := Inserting(fact, previous, 0)])
      case Inserting(fact, previous, n) =>
        var entry := EntryFor(k.graph, fact, c.event);
        if n < |entry.refs| then
          w.(graph := w.graph + {Located(entry.partition, entry.refs[n])},
             workers := w.workers[c := Inserting(fact, previous, n + 1)])
        else w.(workers := w.workers[c := Deleting(fact, previous, 0)])
      case Deleting(fact, previous, n) =>
        if previous.Some? && n < |previous.value.refs| then
          w.(graph := w.graph - {Located(previous.value.partition, previous.value.refs[n])},
             workers := w.workers[c := Deleting(fact, previous, n + 1)])
        else w.(workers := w.workers[c := Putting(fact)])
      case Putting(fact) =>
        w.(checkpoints := PutIfNewer(w.checkpoints, f, EntryFor(k.graph, fact, c.event)),
           workers := w.workers[c := Acking])
      case Acking =>
        if Owns(w.tables.events, c) then
          WithEvents(w, w.tables.events[c.event := Acked(w.tables.events[c.event], now)]).(workers := w.workers - {c})
        else w.(workers := w.workers[c := Failing])
      case Failing => w
  }

  function HeartbeatStep(w: World, c: ClaimedChange, until: Time): World {
    if c !in w.workers || w.workers[c].Failing? then w
    else if Owns(w.tables.events, c) && !Done(w.tables.events[c.event]) then
      WithEvents(w, w.tables.events[c.event := Renewed(w.tables.events[c.event], until)])
    else w.(workers := w.workers[c := Failing])
  }

  function ReleaseStep(k: Config, w: World, c: ClaimedChange, retryAt: Time, now: Time): World {
    if c !in w.workers || !w.workers[c].Failing? then w
    else if Owns(w.tables.events, c) then
      WithEvents(w, w.tables.events[c.event := Failed(w.tables.events[c.event], retryAt, now, k.maxAttempts)]).(
      workers := w.workers - {c})
    else w.(workers := w.workers - {c})
  }

  /** One step; a claim of events that are not claimable at its time is no step. */
  function Next(k: Config, w: World, s: Step): World
    requires Open(w.tables)
  {
    match s
    case Write(a) => w.(tables := Attempted(k.policy, w.tables, a).0)
    case Grant(chosen, consumer, until, now) =>
      if chosen != {} && forall e <- chosen :: Claimable(w.tables.events, e, now) then GrantStep(w, chosen, consumer, until) else w
    case Proceed(c, now) => ProceedStep(k, w, c, now)
    case Heartbeat(c, until) => HeartbeatStep(w, c, until)
    case Raise(c) => if c in w.workers then w.(workers := w.workers[c := Failing]) else w
    case Release(c, retryAt, now) => ReleaseStep(k, w, c, retryAt, now)
    case Crash(c) => w.(workers := w.workers - {c})
  }

  // ---- the invariant ----------------------------------------------------------------------

  ghost predicate LeasesOk(t: Tables) {
    forall e <- t.events ::
      var v := t.events[e];
      && (v.lease.Some? ==> !Done(v) && v.lease.value.token < t.uuids)
      && !(v.processedAt.Some? && v.deadLetteredAt.Some?)
      && (v.lease.Some? || Done(v) ==> v.attempts > 0)
  }

  /** An event is only ever claimed after every lower version of its fact is finished. */
  ghost predicate ClaimedInOrder(t: Tables) {
    forall d <- t.events, e <- t.events ::
      t.events[d].fact == t.events[e].fact && t.events[d].version < t.events[e].version && t.events[e].attempts > 0
      ==> Done(t.events[d])
  }

  /** The checkpoint is the entry of one stored revision, no later than the head. */
  ghost predicate IsEntry(g: GraphSettings, t: Tables, f: FactKey, cp: Checkpoint) {
    && 1 <= cp.version <= Version(t, f)
    && (forall r :: RevisionAt(t, f, cp.version, r) ==>
                      cp == CheckpointOf(g, f, cp.version, t.revisions[r].payload, t.revisions[r].status, cp.lastEvent))
    && (forall i :: 0 <= i < |cp.refs| ==> cp.refs[i].fact == f && cp.refs[i].revision == cp.version)
  }

  ghost predicate Present(w: World, p: Partition, refs: seq<Ref>, n: nat)
    requires n <= |refs|
  {
    forall i :: 0 <= i < n ==> Located(p, refs[i]) in w.graph
  }

  ghost predicate CheckpointsOk(g: GraphSettings, w: World) {
    forall f <- w.checkpoints ::
      && IsEntry(g, w.tables, f, w.checkpoints[f])
      && (w.checkpoints[f].version == Version(w.tables, f) ==>
            Present(w, w.checkpoints[f].partition, w.checkpoints[f].refs, |w.checkpoints[f].refs|))
  }

  ghost predicate Indexed(w: World, e: Uuid)
    requires e in w.tables.events
  {
    var v := w.tables.events[e];
    v.fact in w.checkpoints && w.checkpoints[v.fact].version >= v.version
  }

  ghost predicate ProcessedIsIndexed(w: World) {
    forall e <- w.tables.events :: w.tables.events[e].processedAt.Some? ==> Indexed(w, e)
  }

  /** A record some worker read: a revision of the event's fact, at least as new as the event. */
  ghost predicate ReadOk(t: Tables, e: Uuid, fact: FactRecord)
    requires e in t.events
  {
    && fact.key == t.events[e].fact
    && t.events[e].version <= fact.revision <= Version(t, fact.key)
    && (forall r :: RevisionAt(t, fact.key, fact.revision, r) ==>
                      t.revisions[r].payload == fact.payload && t.revisions[r].status == fact.status)
  }

  ghost predicate PreviousOk(g: GraphSettings, t: Tables, fact: FactRecord, previous: Option<Checkpoint>) {
    previous.Some? ==> previous.value.version < fact.revision && IsEntry(g, t, fact.key, previous.value)
  }

  /** As long as the record read is current, what was inserted for it is there. */
  ghost predicate InsertedOk(g: GraphSettings, w: World, c: ClaimedChange, fact: FactRecord, n: nat) {
    var entry := EntryFor(g, fact, c.event);
    n <= |entry.refs| && (fact.revision == Version(w.tables, fact.key) ==> Present(w, entry.partition, entry.refs, n))
  }

  ghost predicate WorkerOk(g: GraphSettings, w: World, c: ClaimedChange)
    requires c in w.workers
  {
    && c.event in w.tables.events && c.token < w.tables.uuids
    && match w.workers[c]
       case Claimed => true
       case HeadRead(fact) => ReadOk(w.tables, c.event, fact)
       case Inserting(fact, previous, n) =>
         && ReadOk(w.tables, c.event, fact) && PreviousOk(g, w.tables, fact, previous) && InsertedOk(g, w, c, fact, n)
       case Deleting(fact, previous, n) =>
         && ReadOk(w.tables, c.event, fact) && PreviousOk(g, w.tables, fact, previous)
         && InsertedOk(g, w, c, fact, |EntryFor(g, fact, c.event).refs|)
       case Putting(fact) =>
         ReadOk(w.tables, c.event, fact) && InsertedOk(g, w, c, fact, |EntryFor(g, fact, c.event).refs|)
       case Acking => Indexed(w, c.event)
       case Failing => true
  }

  ghost predicate WorkersOk(g: GraphSettings, w: World) {
    forall c <- w.workers :: WorkerOk(g, w, c)
  }

  ghost predicate WorldInv(g: GraphSettings, w: World) {
    && Inv(w.tables) && Open(w.tables)
    && LeasesOk(w.tables) && ClaimedInOrder(w.tables)
    && CheckpointsOk(g, w) && ProcessedIsIndexed(w) && WorkersOk(g, w)
  }
}
