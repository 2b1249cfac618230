/** What holds in every world that writers and index workers can reach, and what stays out of reach. */
module ProjectionTheorems {
  import opened Domain
  import opened Tables
  import opened StoreInvariant
  import opened StoreRuns
  import opened Outbox
  import opened Projection
  import opened ProjectionProofs

  ghost function Run(k: Config, w: World, steps: seq<Step>): (u: World)
    requires WorldInv(k.graph, w)
    ensures WorldInv(k.graph, u)
    decreases |steps|
  {
    if steps == [] then w
    else
      var m := Run(k, w, steps[..|steps| - 1]);
      StepKeepsWorld(k, m, steps[|steps| - 1]);
      Next(k, m, steps[|steps| - 1])
  }

  ghost function Reached(k: Config, steps: seq<Step>): (w: World)
    ensures WorldInv(k.graph, w)
  {
    StartIsOk(k.graph);
    Run(k, START, steps)
  }

  lemma {:induction false} RunThen(k: Config, w: World, first: seq<Step>, rest: seq<Step>)
    requires WorldInv(k.graph, w)
    ensures Run(k, w, first + rest) == Run(k, Run(k, w, first), rest)
    decreases |rest|
  {
    hide WorldInv, Next;
    if rest == [] {
      assert first + rest == first;
    } else {
      var n := |rest| - 1;
      RunThen(k, w, first, rest[..n]);
      assert (first + rest)[..|first + rest| - 1] == first + rest[..n];
    }
  }

  lemma RunOne(k: Config, w: World, s: Step)
    requires WorldInv(k.graph, w)
    ensures Run(k, w, [s]) == Next(k, w, s)
  {
    hide WorldInv, Next;
    assert [s][..0] == [];
    assert Run(k, w, []) == w;
  }

  // ---- convergence ------------------------------------------------------------------------

  /** In every run, with any number of writers and workers that stop or lose their leases anywhere, an event is
      processed only once its version is indexed, and the index never runs ahead of the head. */
  lemma ProcessedMeansIndexed(k: Config, steps: seq<Step>, f: FactKey, v: int, e: Uuid)
    requires EventAt(Reached(k, steps).tables, f, v, e)
    ensures var w := Reached(k, steps);
            && (w.tables.events[e].processedAt.Some? ==> f in w.checkpoints && v <= w.checkpoints[f].version)
            && (f in w.checkpoints ==> 1 <= w.checkpoints[f].version <= w.tables.heads[f].currentVersion && f in w.tables.heads)
  {
    hide Inv, Open, LeasesOk, ClaimedInOrder, WorkersOk, Reached;
  }

  /** Once the event of a fact's current version is processed, whatever became of the older ones, the checkpoint
      is the entry of the current revision and every one of its refs is in the graph. */
  lemma ProjectionConverges(k: Config, steps: seq<Step>, f: FactKey, e: Uuid)
    requires f in Reached(k, steps).tables.heads
    requires EventAt(Reached(k, steps).tables, f, Reached(k, steps).tables.heads[f].currentVersion, e)
    requires Reached(k, steps).tables.events[e].processedAt.Some?
    ensures var w := Reached(k, steps);
            var head := w.tables.heads[f];
            && head.currentRevision in w.tables.revisions
            && f in w.checkpoints
            && w.checkpoints[f] == CheckpointOf(k.graph, f, head.currentVersion, w.tables.revisions[head.currentRevision].payload,
                                                head.status, w.checkpoints[f].lastEvent)
            && (forall ref <- w.checkpoints[f].refs :: Located(w.checkpoints[f].partition, ref) in w.graph)
  {
    var w := Reached(k, steps);
    ProcessedMeansIndexed(k, steps, f, w.tables.heads[f].currentVersion, e);
    assert HeadsAgree(w.tables);
    hide Inv, Open, LeasesOk, ClaimedInOrder, WorkersOk, Reached, CheckpointOf;
    assert RevisionAt(w.tables, f, w.tables.heads[f].currentVersion, w.tables.heads[f].currentRevision);
  }

  /** Whenever a checkpoint is at the current version, all it lists is in the graph: a worker that lost its
      lease can leave refs behind, but never removes one of the current version. */
  lemma ZombiesAreHarmless(k: Config, steps: seq<Step>, f: FactKey)
    requires f in Reached(k, steps).checkpoints && f in Reached(k, steps).tables.heads
    requires Reached(k, steps).checkpoints[f].version == Reached(k, steps).tables.heads[f].currentVersion
    ensures var w := Reached(k, steps);
            forall ref <- w.checkpoints[f].refs ::
              && ref.fact == f && ref.revision == w.tables.heads[f].currentVersion
              && Located(w.checkpoints[f].partition, ref) in w.graph
  {
    hide Inv, Open, LeasesOk, ClaimedInOrder, WorkersOk, Reached;
    var w := Reached(k, steps);
    assert Version(w.tables, f) == w.tables.heads[f].currentVersion;
  }

  /** What converged means for a reader of the graph. An active fact is there under its organization and the group of
      its namespace: one edge for each tag in order, one with its namespace if it has no tags, or one episode. An
      invalidated fact has no refs left. */
  lemma IndexedAsStored(k: Config, steps: seq<Step>, f: FactKey, e: Uuid)
    requires f in Reached(k, steps).tables.heads
    requires EventAt(Reached(k, steps).tables, f, Reached(k, steps).tables.heads[f].currentVersion, e)
    requires Reached(k, steps).tables.events[e].processedAt.Some?
    ensures var w := Reached(k, steps);
            var head := w.tables.heads[f];
            && f in w.checkpoints && head.currentRevision in w.tables.revisions
            && var refs, tags := w.checkpoints[f].refs, w.tables.revisions[head.currentRevision].payload.tags;
            && w.checkpoints[f].version == head.currentVersion
            && (head.status == Invalidated ==> refs == [])
            && (head.status == Active && k.graph.mode == Episode ==> refs == [Ref(f, head.currentVersion, EpisodeNode)])
            && (head.status == Active && k.graph.mode == Triplet && tags == [] ==>
                  refs == [Ref(f, head.currentVersion, TagEdge(0, head.namespace))])
            && (head.status == Active && k.graph.mode == Triplet && tags != [] ==>
                  |refs| == |tags| && forall i :: 0 <= i < |tags| ==> refs[i] == Ref(f, head.currentVersion, TagEdge(i, tags[i])))
            && w.checkpoints[f].partition == Partition(f.org, k.graph.groupFor(head.namespace))
            && (forall ref <- refs :: Located(Partition(f.org, k.graph.groupFor(head.namespace)), ref) in w.graph)
  {
    var w := Reached(k, steps);
    assert HeadsAgree(w.tables);
    hide WorldInv, Reached, CheckpointOf;
    ProjectionConverges(k, steps, f, e);
    var head := w.tables.heads[f];
    EntryShows(k.graph, f, head.currentVersion, w.tables.revisions[head.currentRevision].payload, head.status, w.checkpoints[f].lastEvent);
  }

  /** What the entry of one revision lists, and where. */
  lemma EntryShows(g: GraphSettings, f: FactKey, version: nat, payload: Payload, status: Status, event: Uuid)
    ensures var cp := CheckpointOf(g, f, version, payload, status, event);
            && cp.version == version && cp.lastEvent == event && cp.partition == Partition(f.org, g.groupFor(payload.namespace))
            && (status == Invalidated ==> cp.refs == [])
            && (status == Active && g.mode == Episode ==> cp.refs == [Ref(f, version, EpisodeNode)])
            && (status == Active && g.mode == Triplet && payload.tags == [] ==> cp.refs == [Ref(f, version, TagEdge(0, payload.namespace))])
            && (status == Active && g.mode == Triplet && payload.tags != [] ==>
                  && |cp.refs| == |payload.tags|
                  && forall i :: 0 <= i < |payload.tags| ==> cp.refs[i] == Ref(f, version, TagEdge(i, payload.tags[i])))
  {
  }

  // ---- fencing and order ------------------------------------------------------------------

  /** A claim gives out no event whose lease has not ended. */
  lemma GrantLeavesLeased(k: Config, w: World, s: Step, e: Uuid)
    requires Open(w.tables) && s.Grant? && e in w.tables.events && w.tables.events[e].lease.Some? && s.now <= w.tables.events[e].lease.value.until
    ensures e in Next(k, w, s).tables.events && Next(k, w, s).tables.events[e] == w.tables.events[e]
  {
    hide ProceedStep, HeartbeatStep, ReleaseStep, Attempted;
  }

  /** What may happen beside a claim that holds its lease until then: anything but its own worker giving it up, with
      claims at times when the lease has not ended. */
  predicate Beside(c: ClaimedChange, until: Time, s: Step) {
    match s
    case Grant(_, _, _, now) => now <= until
    case Heartbeat(d, until') => d == c ==> until <= until'
    case Release(d, _, _) => d != c
    case _ => true
  }

  /** The claim has its event leased at least until then. */
  predicate Holds(w: World, c: ClaimedChange, until: Time) {
    && c.event in w.tables.events && w.tables.events[c.event].lease.Some?
    && var lease := w.tables.events[c.event].lease.value;
    && lease.owner == c.consumer && lease.token == c.token && until <= lease.until
  }

  lemma LeaseProtectsStep(k: Config, w: World, s: Step, c: ClaimedChange, until: Time)
    requires WorldInv(k.graph, w) && Holds(w, c, until) && Beside(c, until, s)
    ensures c.event in Next(k, w, s).tables.events
    ensures Next(k, w, s).tables.events[c.event].processedAt.Some? || Holds(Next(k, w, s), c, until)
  {
    assert Open(w.tables) && Inv(w.tables);
    hide WorldInv, Inv, Open, Next, Attempted;
    match s
    case Write(a) => WriteLeavesEvents(k, w, s, c.event);
    case Grant(_, _, _, _) => GrantLeavesLeased(k, w, s, c.event);
    case Proceed(d, now) => ProceedKeepsLease(k, w, d, now, c, until);
    case _ => OthersKeepLease(k, w, s, c, until);
  }

  lemma WriteLeavesEvents(k: Config, w: World, s: Step, e: Uuid)
    requires Inv(w.tables) && Open(w.tables) && s.Write? && e in w.tables.events
    ensures e in Next(k, w, s).tables.events && Next(k, w, s).tables.events[e] == w.tables.events[e]
  {
    hide Inv, Open, Attempted, PromotionsSettle;
    AttemptGrows(k.policy, w.tables, s.attempt);
  }

  lemma ProceedKeepsLease(k: Config, w: World, d: ClaimedChange, now: Time, c: ClaimedChange, until: Time)
    requires Open(w.tables) && Holds(w, c, until)
    ensures var u := Next(k, w, Proceed(d, now));
            c.event in u.tables.events && (u.tables.events[c.event].processedAt.Some? || Holds(u, c, until))
  {
    ProceedTouches(k, w, d, now);
    hide Open, ProceedStep, Attempted, GrantStep, HeartbeatStep, ReleaseStep;
  }

  lemma ProceedTouches(k: Config, w: World, d: ClaimedChange, now: Time)
    requires Open(w.tables)
    ensures var u := ProceedStep(k, w, d, now);
            || u.tables.events == w.tables.events
            || (d.event in w.tables.events && u.tables.events == w.tables.events[d.event := Acked(w.tables.events[d.event], now)])
  {
    hide Open, GetFact, EntryFor, PutIfNewer, Owns, Acked;
  }

  lemma OthersKeepLease(k: Config, w: World, s: Step, c: ClaimedChange, until: Time)
    requires Open(w.tables) && Holds(w, c, until) && Beside(c, until, s) && (s.Heartbeat? || s.Raise? || s.Release? || s.Crash?)
    ensures c.event in Next(k, w, s).tables.events && Holds(Next(k, w, s), c, until)
  {
    hide Open, Attempted, GrantStep, ProceedStep, Claimable;
  }

  /** A live lease protects its event: until it ends, nobody else is given the event, and the claim can still finish
      it, unless its own worker gave it up. */
  lemma {:induction false} LeaseProtects(k: Config, w: World, steps: seq<Step>, c: ClaimedChange, until: Time)
    requires WorldInv(k.graph, w) && Holds(w, c, until) && forall s <- steps :: Beside(c, until, s)
    ensures var u := Run(k, w, steps);
            c.event in u.tables.events && (u.tables.events[c.event].processedAt.Some? || Holds(u, c, until))
    decreases |steps|
  {
    hide WorldInv, Next, Beside;
    if steps != [] {
      var n := |steps| - 1;
      LeaseProtects(k, w, steps[..n], c, until);
      var m := Run(k, w, steps[..n]);
      if Holds(m, c, until) {
        LeaseProtectsStep(k, m, steps[n], c, until);
      } else {
        FinishedStaysStep(k, m, steps[n], c.event);
      }
    }
  }

  /** At most one event of a fact is leased, and an event that was ever claimed has only finished ones below it. */
  lemma OneLeasePerFact(k: Config, steps: seq<Step>, d: Uuid, e: Uuid)
    requires d in Reached(k, steps).tables.events && e in Reached(k, steps).tables.events
    requires Reached(k, steps).tables.events[d].fact == Reached(k, steps).tables.events[e].fact
    ensures var events := Reached(k, steps).tables.events;
            && (events[d].lease.Some? && events[e].lease.Some? ==> d == e)
            && (events[d].version < events[e].version && events[e].attempts > 0 ==> Done(events[d]))
            && (events[e].lease.Some? ==> !Done(events[e]))
            && !(events[e].processedAt.Some? && events[e].deadLetteredAt.Some?)
  {
    var t := Reached(k, steps).tables;
    assert Paired(t) && OneRevision(t);
    hide Inv, Open, CheckpointsOk, ProcessedIsIndexed, WorkersOk, Reached;
    assert d in t.revisions && e in t.revisions;
  }

  lemma WriteLeavesLost(policy: ContentPolicy, t: Tables, a: Attempt, c: ClaimedChange)
    requires Inv(t) && Open(t) && c.token < t.uuids && !Owns(t.events, c)
    ensures !Owns(Attempted(policy, t, a).0.events, c) && c.token < Attempted(policy, t, a).0.uuids
  {
    hide Inv, Open, Attempted, PromotionsSettle;
    AttemptGrows(policy, t, a);
  }

  lemma ProceedLeavesLost(k: Config, w: World, d: ClaimedChange, now: Time, c: ClaimedChange)
    requires Open(w.tables) && !Owns(w.tables.events, c)
    ensures !Owns(ProceedStep(k, w, d, now).tables.events, c)
    ensures ProceedStep(k, w, d, now).tables.uuids == w.tables.uuids
  {
    hide GetFact, EntryFor, PutIfNewer;
  }

  lemma DeliveryLeavesLost(k: Config, w: World, s: Step, c: ClaimedChange)
    requires Open(w.tables) && !Owns(w.tables.events, c) && c.token < w.tables.uuids
    requires s.Grant? || s.Heartbeat? || s.Release?
    ensures !Owns(Next(k, w, s).tables.events, c) && c.token < Next(k, w, s).tables.uuids
  {
    hide Claimable, ProceedStep;
  }

  lemma LossIsFinalStep(k: Config, w: World, s: Step, c: ClaimedChange)
    requires WorldInv(k.graph, w) && c.token < w.tables.uuids && !Owns(w.tables.events, c)
    ensures !Owns(Next(k, w, s).tables.events, c) && c.token < Next(k, w, s).tables.uuids
  {
    hide Inv, Open, LeasesOk, ClaimedInOrder, CheckpointsOk, ProcessedIsIndexed, WorkersOk, Attempted, Claimable;
    hide ProceedStep, GrantStep, HeartbeatStep, ReleaseStep, Owns;
    match s
    case Write(a) => WriteLeavesLost(k.policy, w.tables, a, c);
    case Proceed(d, now) => ProceedLeavesLost(k, w, d, now, c);
    case Raise(_) =>
    case Crash(_) =>
    case _ => DeliveryLeavesLost(k, w, s, c);
  }

  /** A claim whose event was claimed again or finished never owns it again, so it can no longer ack, renew or
      fail it. */
  lemma {:induction false} LossIsFinal(k: Config, w: World, steps: seq<Step>, c: ClaimedChange)
    requires WorldInv(k.graph, w) && c.token < w.tables.uuids && !Owns(w.tables.events, c)
    ensures !Owns(Run(k, w, steps).tables.events, c) && c.token < Run(k, w, steps).tables.uuids
    decreases |steps|
  {
    hide WorldInv, Next, Owns;
    if steps != [] {
      var n := |steps| - 1;
      LossIsFinal(k, w, steps[..n], c);
      LossIsFinalStep(k, Run(k, w, steps[..n]), steps[n], c);
    }
  }

  lemma FinishedStaysStep(k: Config, w: World, s: Step, e: Uuid)
    requires WorldInv(k.graph, w) && e in w.tables.events && Done(w.tables.events[e])
    ensures e in Next(k, w, s).tables.events && Next(k, w, s).tables.events[e] == w.tables.events[e]
  {
    if s.Write? {
      hide Core, Recorded, LeasesOk, ClaimedInOrder, CheckpointsOk, ProcessedIsIndexed, WorkersOk, Attempted;
      AttemptGrows(k.policy, w.tables, s.attempt);
    } else {
      assert LeasesOk(w.tables) && Open(w.tables);
      hide Inv, Open, WorldInv, Next;
      FinishedIsLeftAlone(k, w, s, e);
    }
  }

  lemma FinishedIsLeftAlone(k: Config, w: World, s: Step, e: Uuid)
    requires LeasesOk(w.tables) && Open(w.tables) && e in w.tables.events && Done(w.tables.events[e]) && !s.Write?
    ensures e in Next(k, w, s).tables.events && Next(k, w, s).tables.events[e] == w.tables.events[e]
  {
    hide Open, GetFact, EntryFor, PutIfNewer;
  }

  /** Processed and dead-lettered are for good. */
  lemma {:induction false} FinishedIsFinal(k: Config, w: World, steps: seq<Step>, e: Uuid)
    requires WorldInv(k.graph, w) && e in w.tables.events && Done(w.tables.events[e])
    ensures e in Run(k, w, steps).tables.events && Run(k, w, steps).tables.events[e] == w.tables.events[e]
    decreases |steps|
  {
    hide WorldInv, Next;
    if steps != [] {
      var n := |steps| - 1;
      FinishedIsFinal(k, w, steps[..n], e);
      FinishedStaysStep(k, Run(k, w, steps[..n]), steps[n], e);
    }
  }

  /** Nothing but a write changes what is stored about facts; workers only touch delivery columns. */
  lemma WorkersOnlyDeliver(k: Config, w: World, s: Step)
    requires WorldInv(k.graph, w) && !s.Write?
    ensures SameDeliveries(w.tables, Next(k, w, s).tables)
  {
    hide Inv, LeasesOk, ClaimedInOrder, CheckpointsOk, ProcessedIsIndexed, WorkersOk, Claimable, SameDeliveries;
    match s
    case Grant(chosen, consumer, until, _) =>
      hide ProceedStep, HeartbeatStep, ReleaseStep;
      GrantDelivers(w, chosen, consumer, until);
      DeliversNothing(w.tables);
    case Proceed(c, now) =>
      hide GrantStep, HeartbeatStep, ReleaseStep;
      ProceedDelivers(k, w, c, now);
    case _ =>
      hide GrantStep, ProceedStep;
      OthersDeliver(k, w, s);
  }

  lemma DeliversNothing(t: Tables)
    ensures SameDeliveries(t, t)
  {
  }

  lemma GrantDelivers(w: World, chosen: set<Uuid>, consumer: string, until: Time)
    ensures SameDeliveries(w.tables, GrantStep(w, chosen, consumer, until).tables)
  {
  }

  lemma ProceedDelivers(k: Config, w: World, c: ClaimedChange, now: Time)
    requires Open(w.tables)
    ensures SameDeliveries(w.tables, ProceedStep(k, w, c, now).tables)
  {
    hide Open, GetFact, EntryFor, PutIfNewer;
  }

  lemma OthersDeliver(k: Config, w: World, s: Step)
    requires Open(w.tables) && (s.Heartbeat? || s.Raise? || s.Release? || s.Crash?)
    ensures SameDeliveries(w.tables, Next(k, w, s).tables)
  {
    hide Open, Attempted, ProceedStep, GrantStep, SameDeliveries;
    DeliversNothing(w.tables);
    if (s.Heartbeat? || s.Release?) && Owns(w.tables.events, s.worker) {
      var v := w.tables.events[s.worker.event];
      OneDelivers(w, s.worker.event, if s.Heartbeat? then Renewed(v, s.until) else Failed(v, s.retryAt, s.now, k.maxAttempts));
    }
  }

  lemma OneDelivers(w: World, e: Uuid, v: Event)
    requires e in w.tables.events && var was := w.tables.events[e];
             v.fact == was.fact && v.version == was.version && v.op == was.op
    ensures SameDeliveries(w.tables, WithEvents(w, w.tables.events[e := v]).tables)
  {
  }
}
