/** Every step of the writers and the index workers keeps the invariant of the world. */
module ProjectionProofs {
  import opened Domain
  import opened Tables
  import opened StoreInvariant
  import opened StoreRuns
  import opened Outbox
  import opened Projection

  // ---- the store under event bookkeeping --------------------------------------------------

  /** Only the delivery columns of events, and the identity counter, differ. */
  ghost predicate SameDeliveries(t: Tables, u: Tables) {
    && u == t.(events := u.events, uuids := u.uuids) && t.uuids <= u.uuids
    && u.events.Keys == t.events.Keys
    && (forall e <- t.events :: u.events[e].fact == t.events[e].fact && u.events[e].version == t.events[e].version
                                && u.events[e].op == t.events[e].op)
  }

  lemma DeliveryKeepsRevisions(t: Tables, u: Tables)
    requires InRange(t) && OneRevision(t) && NoGaps(t) && SameDeliveries(t, u)
    ensures InRange(u) && OneRevision(u) && NoGaps(u)
  {
    forall f, v | 1 <= v <= Version(u, f) ensures HasRevision(u, f, v) {
      assert HasRevision(t, f, v);
      var r :| RevisionAt(t, f, v, r);
      assert RevisionAt(u, f, v, r);
    }
  }

  lemma DeliveryKeepsPairs(t: Tables, u: Tables)
    requires Paired(t) && HeadsAgree(t) && CreatorsAgree(t) && LastInvalidated(t) && ContentPinned(t) && SameDeliveries(t, u)
    ensures Paired(u) && HeadsAgree(u) && CreatorsAgree(u) && LastInvalidated(u) && ContentPinned(u)
  {
  }

  lemma DeliveryKeepsRelations(t: Tables, u: Tables)
    requires Relations(t) && SameDeliveries(t, u)
    ensures Relations(u)
  {
    forall x <- u.relations, r | RevisionAt(u, x.to, 1, r) ensures r < x.createdRevision {
      assert RevisionAt(t, x.to, 1, r);
    }
  }

  lemma DeliveryKeepsPromotions(t: Tables, u: Tables)
    requires Promotions(t) && SameDeliveries(t, u)
    ensures Promotions(u)
  {
    forall q <- u.promotions, r | RevisionAt(u, u.promotions[q].fact, u.promotions[q].sourceVersion, r)
      ensures Promotable(u.revisions[r])
    {
      assert RevisionAt(t, t.promotions[q].fact, t.promotions[q].sourceVersion, r);
    }
  }

  lemma DeliveryKeepsApprovals(t: Tables, u: Tables)
    requires ApprovalsTaken(t) && PromotedApproved(t) && SameDeliveries(t, u)
    ensures ApprovalsTaken(u) && PromotedApproved(u)
  {
    forall r <- u.revisions | r in u.events && u.events[r].op == Promoted
      ensures HasApproval(u, u.revisions[r].fact, u.revisions[r].version)
    {
      assert HasApproval(t, t.revisions[r].fact, t.revisions[r].version);
      var q :| ApprovedAt(t, t.revisions[r].fact, t.revisions[r].version, q);
      assert ApprovedAt(u, t.revisions[r].fact, t.revisions[r].version, q);
    }
  }

  lemma DeliveryKeepsInv(t: Tables, u: Tables)
    requires Inv(t) && Open(t) && SameDeliveries(t, u)
    ensures Inv(u) && Open(u)
  {
    hide InRange, OneRevision, NoGaps, Paired, HeadsAgree, CreatorsAgree, LastInvalidated;
    hide Relations, PromotionRows, PromotionSources, OnePending, ApprovalsTaken, PromotedApproved, ContentPinned;
    DeliveryKeepsRevisions(t, u);
    DeliveryKeepsPairs(t, u);
    DeliveryKeepsRelations(t, u);
    DeliveryKeepsPromotions(t, u);
    DeliveryKeepsApprovals(t, u);
  }

  // ---- what readers rely on ---------------------------------------------------------------

  /** Heads only move forward, stored revisions stay, and events stay what they are about. */
  ghost predicate Onward(t: Tables, u: Tables) {
    && (forall f :: Version(t, f) <= Version(u, f))
    && (forall f, v, r :: RevisionAt(u, f, v, r) && 1 <= v <= Version(t, f) ==> RevisionAt(t, f, v, r) && t.revisions[r] == u.revisions[r])
    && (forall e <- t.events :: e in u.events && u.events[e].fact == t.events[e].fact && u.events[e].version == t.events[e].version)
    && t.uuids <= u.uuids
  }

  lemma DeliveryIsOnward(t: Tables, u: Tables)
    requires SameDeliveries(t, u)
    ensures Onward(t, u)
  {
  }

  lemma WriteIsOnward(t: Tables, u: Tables, org: OrgId)
    requires NoGaps(t) && OneRevision(u) && Grows(t, u, org)
    ensures Onward(t, u)
  {
    forall f ensures Version(t, f) <= Version(u, f) {
      assert f in t.heads ==> f in u.heads;
    }
    forall f, v, r | RevisionAt(u, f, v, r) && 1 <= v <= Version(t, f)
      ensures RevisionAt(t, f, v, r) && t.revisions[r] == u.revisions[r]
    {
      assert HasRevision(t, f, v);
      var s :| RevisionAt(t, f, v, s);
      assert s in u.revisions;
    }
  }

  lemma EntryStays(g: GraphSettings, t: Tables, u: Tables, f: FactKey, cp: Checkpoint)
    requires IsEntry(g, t, f, cp) && Onward(t, u)
    ensures IsEntry(g, u, f, cp)
  {
    assert Version(t, f) <= Version(u, f);
  }

  lemma ReadStays(t: Tables, u: Tables, e: Uuid, fact: FactRecord)
    requires Onward(t, u) && e in t.events && ReadOk(t, e, fact) && t.events[e].version >= 1
    ensures e in u.events && ReadOk(u, e, fact)
  {
    assert Version(t, fact.key) <= Version(u, fact.key);
  }

  lemma CheckpointsStay(g: GraphSettings, w: World, u: World)
    requires CheckpointsOk(g, w) && u == w.(tables := u.tables) && Onward(w.tables, u.tables)
    ensures CheckpointsOk(g, u)
  {
    forall f <- u.checkpoints
      ensures IsEntry(g, u.tables, f, u.checkpoints[f])
      ensures u.checkpoints[f].version == Version(u.tables, f) ==>
                Present(u, u.checkpoints[f].partition, u.checkpoints[f].refs, |u.checkpoints[f].refs|)
    {
      EntryStays(g, w.tables, u.tables, f, w.checkpoints[f]);
      assert Version(w.tables, f) <= Version(u.tables, f);
    }
  }

  ghost predicate EventsPositive(t: Tables) {
    forall e <- t.events :: t.events[e].version >= 1
  }

  lemma WorkerStays(g: GraphSettings, w: World, u: World, c: ClaimedChange)
    requires c in w.workers && WorkerOk(g, w, c) && EventsPositive(w.tables)
    requires c in u.workers && u.workers[c] == w.workers[c]
    requires u.checkpoints == w.checkpoints && u.graph == w.graph && Onward(w.tables, u.tables)
    ensures WorkerOk(g, u, c)
  {
    match w.workers[c]
    case HeadRead(fact) => ReadStays(w.tables, u.tables, c.event, fact);
    case Inserting(fact, previous, n) =>
      ReadStays(w.tables, u.tables, c.event, fact);
      InsertedStays(g, w, u, c, fact, n);
      if previous.Some? { EntryStays(g, w.tables, u.tables, fact.key, previous.value); }
    case Deleting(fact, previous, n) =>
      ReadStays(w.tables, u.tables, c.event, fact);
      InsertedStays(g, w, u, c, fact, |EntryFor(g, fact, c.event).refs|);
      if previous.Some? { EntryStays(g, w.tables, u.tables, fact.key, previous.value); }
    case Putting(fact) =>
      ReadStays(w.tables, u.tables, c.event, fact);
      InsertedStays(g, w, u, c, fact, |EntryFor(g, fact, c.event).refs|);
    case _ =>
  }

  lemma InsertedStays(g: GraphSettings, w: World, u: World, c: ClaimedChange, fact: FactRecord, n: nat)
    requires InsertedOk(g, w, c, fact, n) && u.graph == w.graph && Onward(w.tables, u.tables)
    requires fact.revision <= Version(w.tables, fact.key)
    ensures InsertedOk(g, u, c, fact, n)
  {
    assert Version(w.tables, fact.key) <= Version(u.tables, fact.key);
  }

  lemma WorkersStay(g: GraphSettings, w: World, u: World)
    requires WorkersOk(g, w) && EventsPositive(w.tables)
    requires u == w.(tables := u.tables) && Onward(w.tables, u.tables)
    ensures WorkersOk(g, u)
  {
    forall c <- u.workers ensures WorkerOk(g, u, c) {
      WorkerStays(g, w, u, c);
    }
  }

  lemma InvGivesPositive(t: Tables)
    requires InRange(t) && Paired(t)
    ensures EventsPositive(t)
  {
  }

  // ---- writers ----------------------------------------------------------------------------

  lemma WriteKeepsLeases(t: Tables, u: Tables, org: OrgId)
    requires LeasesOk(t) && Grows(t, u, org)
    ensures LeasesOk(u)
  {
  }

  lemma WriteKeepsOrder(t: Tables, u: Tables, org: OrgId)
    requires ClaimedInOrder(t) && Grows(t, u, org) && Onward(t, u)
    requires InRange(t) && Paired(t) && InRange(u) && Paired(u)
    ensures ClaimedInOrder(u)
  {
    forall d <- u.events, e <- u.events |
      u.events[d].fact == u.events[e].fact && u.events[d].version < u.events[e].version && u.events[e].attempts > 0
      ensures d in t.events && e in t.events
    {
      assert e in t.events && e in t.revisions;
      assert RevisionAt(u, u.events[d].fact, u.events[d].version, d);
    }
  }

  lemma WriteKeepsWorld(k: Config, w: World, a: Attempt)
    requires WorldInv(k.graph, w)
    ensures WorldInv(k.graph, Next(k, w, Write(a)))
  {
    hide InRange, OneRevision, NoGaps, Paired, HeadsAgree, CreatorsAgree, LastInvalidated;
    hide Relations, PromotionRows, PromotionSources, OnePending, ApprovalsTaken, PromotedApproved, ContentPinned;
    hide LeasesOk, ClaimedInOrder, CheckpointsOk, WorkersOk, Recorded, Open, Attempted, Grows, Onward;
    var u := Next(k, w, Write(a));
    AttemptKeepsInv(k.policy, w.tables, a);
    AttemptGrows(k.policy, w.tables, a);
    WriteIsOnward(w.tables, u.tables, a.actor.org);
    WriteKeepsLeases(w.tables, u.tables, a.actor.org);
    WriteKeepsOrder(w.tables, u.tables, a.actor.org);
    InvGivesPositive(w.tables);
    CheckpointsStay(k.graph, w, u);
    WorkersStay(k.graph, w, u);
    WriteKeepsProcessed(w, u, a.actor.org);
  }

  lemma WriteKeepsProcessed(w: World, u: World, org: OrgId)
    requires ProcessedIsIndexed(w) && u == w.(tables := u.tables) && Grows(w.tables, u.tables, org)
    ensures ProcessedIsIndexed(u)
  {
    forall e <- u.tables.events | u.tables.events[e].processedAt.Some? ensures Indexed(u, e) {
      assert e in w.tables.events && Indexed(w, e);
    }
  }

  // ---- leases -----------------------------------------------------------------------------

  lemma GrantKeepsLeases(t: Tables, u: Tables, chosen: set<Uuid>, consumer: string, until: Time, now: Time)
    requires LeasesOk(t) && ClaimedInOrder(t)
    requires forall e <- chosen :: Claimable(t.events, e, now)
    requires u == t.(events := LeaseAll(t.events, chosen, Lease(consumer, t.uuids, until)), uuids := t.uuids + 1)
    ensures LeasesOk(u) && ClaimedInOrder(u) && SameDeliveries(t, u)
  {
    forall d <- u.events, e <- u.events |
      u.events[d].fact == u.events[e].fact && u.events[d].version < u.events[e].version && u.events[e].attempts > 0
      ensures Done(u.events[d])
    {
      if e in chosen {
        assert Claimable(t.events, e, now);
        assert Before(t.events, d, e);
      }
    }
  }

  lemma GrantKeepsWorld(k: Config, w: World, chosen: set<Uuid>, consumer: string, until: Time, now: Time)
    requires WorldInv(k.graph, w)
    requires forall e <- chosen :: Claimable(w.tables.events, e, now)
    ensures WorldInv(k.graph, GrantStep(w, chosen, consumer, until))
  {
    hide InRange, OneRevision, NoGaps, Paired, HeadsAgree, CreatorsAgree, LastInvalidated;
    hide Relations, PromotionRows, PromotionSources, OnePending, ApprovalsTaken, PromotedApproved, ContentPinned;
    hide LeasesOk, ClaimedInOrder, CheckpointsOk, Recorded, Open, Onward;
    var u := GrantStep(w, chosen, consumer, until);
    var m := w.(tables := u.tables);
    GrantKeepsLeases(w.tables, u.tables, chosen, consumer, until, now);
    DeliveryKeepsInv(w.tables, u.tables);
    DeliveryIsOnward(w.tables, u.tables);
    InvGivesPositive(w.tables);
    CheckpointsStay(k.graph, w, m);
    WorkersStay(k.graph, w, m);
    GrantedWorkers(k.graph, m, u, chosen, consumer, w.tables.uuids);
    SameCheckpoints(k.graph, m, u);
    forall e <- u.tables.events | u.tables.events[e].processedAt.Some? ensures Indexed(u, e) {
      assert Indexed(w, e);
    }
  }

  lemma SameCheckpoints(g: GraphSettings, w: World, u: World)
    requires CheckpointsOk(g, w) && u == w.(workers := u.workers)
    ensures CheckpointsOk(g, u)
  {
  }

  lemma GrantedWorkers(g: GraphSettings, w: World, u: World, chosen: set<Uuid>, consumer: string, token: Uuid)
    requires WorkersOk(g, w) && chosen <= w.tables.events.Keys && token < w.tables.uuids
    requires u == w.(workers := w.workers + map e <- chosen :: ClaimedChange(e, consumer, token) := Claimed)
    ensures WorkersOk(g, u)
  {
    forall c <- u.workers ensures WorkerOk(g, u, c) {
      if u.workers[c] != Claimed {
        assert c in w.workers && WorkerOk(g, w, c);
      } else if c in w.workers {
        assert WorkerOk(g, w, c);
      }
    }
  }

  /** One event gets another delivery state that is no less finished. */
  ghost predicate Redelivers(t: Tables, u: Tables, e: Uuid) {
    && e in t.events && e in u.events && u == t.(events := t.events[e := u.events[e]])
    && var v, n := t.events[e], u.events[e];
    && n.fact == v.fact && n.version == v.version && n.op == v.op && n.attempts == v.attempts
    && (Done(v) ==> Done(n)) && v.attempts > 0
    && (n.lease.Some? ==> !Done(n) && n.lease.value.token < t.uuids)
    && !(n.processedAt.Some? && n.deadLetteredAt.Some?)
  }

  lemma RedeliveryKeepsLeases(t: Tables, u: Tables, e: Uuid)
    requires LeasesOk(t) && ClaimedInOrder(t) && Redelivers(t, u, e)
    ensures LeasesOk(u) && ClaimedInOrder(u) && SameDeliveries(t, u)
  {
  }

  lemma RedeliveryKeepsWorld(k: Config, w: World, u: World, e: Uuid)
    requires WorldInv(k.graph, w) && u == w.(tables := u.tables) && Redelivers(w.tables, u.tables, e)
    requires u.tables.events[e].processedAt.Some? ==> Indexed(w, e)
    ensures WorldInv(k.graph, u)
  {
    hide InRange, OneRevision, NoGaps, Paired, HeadsAgree, CreatorsAgree, LastInvalidated;
    hide Relations, PromotionRows, PromotionSources, OnePending, ApprovalsTaken, PromotedApproved, ContentPinned;
    hide LeasesOk, ClaimedInOrder, CheckpointsOk, WorkersOk, Recorded, Open, Onward;
    RedeliveryKeepsLeases(w.tables, u.tables, e);
    DeliveryKeepsInv(w.tables, u.tables);
    DeliveryIsOnward(w.tables, u.tables);
    InvGivesPositive(w.tables);
    CheckpointsStay(k.graph, w, u);
    WorkersStay(k.graph, w, u);
    forall d <- u.tables.events | u.tables.events[d].processedAt.Some? ensures Indexed(u, d) {
      assert Indexed(w, d);
    }
  }

  /** A worker can only lose its place, or take one its claim allows. */
  lemma WorkerMoves(g: GraphSettings, w: World, u: World, c: ClaimedChange)
    requires WorldInv(g, w) && c in w.workers
    requires u == w.(workers := u.workers)
    requires u.workers == w.workers - {c} || (c in u.workers && u.workers == w.workers[c := u.workers[c]] && WorkerOk(g, u, c))
    ensures WorldInv(g, u)
  {
    hide InRange, OneRevision, NoGaps, Paired, HeadsAgree, CreatorsAgree, LastInvalidated;
    hide Relations, PromotionRows, PromotionSources, OnePending, ApprovalsTaken, PromotedApproved, ContentPinned;
    hide LeasesOk, ClaimedInOrder, Recorded, Open, IsEntry;
    forall d <- u.workers ensures WorkerOk(g, u, d) {
      if d != c {
        assert WorkerOk(g, w, d);
      }
    }
    forall e <- u.tables.events | u.tables.events[e].processedAt.Some? ensures Indexed(u, e) {
      assert Indexed(w, e);
    }
  }

  // ---- the projection of one claim --------------------------------------------------------

  lemma ReadHeadOk(t: Tables, e: Uuid)
    requires InRange(t) && OneRevision(t) && Paired(t) && HeadsAgree(t) && HeadsHaveRevisions(t) && e in t.events
    ensures GetFact(t, t.events[e].fact).Ok? && ReadOk(t, e, GetFact(t, t.events[e].fact).value)
  {
    assert e in t.revisions;
  }

  lemma ReadProjectionOk(g: GraphSettings, w: World, c: ClaimedChange, fact: FactRecord)
    requires CheckpointsOk(g, w) && c.event in w.tables.events && ReadOk(w.tables, c.event, fact)
    requires fact.key in w.checkpoints
    ensures w.checkpoints[fact.key].version >= fact.revision ==> Indexed(w, c.event)
    ensures w.checkpoints[fact.key].version < fact.revision ==> PreviousOk(g, w.tables, fact, Some(w.checkpoints[fact.key]))
  {
  }

  /** Adding to the graph disturbs nobody. */
  lemma InsertKeepsWorld(g: GraphSettings, w: World, u: World, located: Located)
    requires WorldInv(g, w) && u == w.(graph := w.graph + {located})
    ensures WorldInv(g, u)
  {
    hide InRange, OneRevision, NoGaps, Paired, HeadsAgree, CreatorsAgree, LastInvalidated;
    hide Relations, PromotionRows, PromotionSources, OnePending, ApprovalsTaken, PromotedApproved, ContentPinned;
    hide LeasesOk, ClaimedInOrder, Recorded, Open, IsEntry;
    forall c <- u.workers ensures WorkerOk(g, u, c) {
      assert WorkerOk(g, w, c);
    }
    forall e <- u.tables.events | u.tables.events[e].processedAt.Some? ensures Indexed(u, e) {
      assert Indexed(w, e);
    }
  }

  /** Removing a ref of a version below the head leaves every ref of a head version in place. */
  lemma DeleteKeepsPresent(g: GraphSettings, w: World, u: World, located: Located, p: Partition, refs: seq<Ref>, n: nat, f: FactKey)
    requires u == w.(graph := w.graph - {located}) && n <= |refs| && Present(w, p, refs, n)
    requires located.ref.revision < Version(w.tables, located.ref.fact)
    requires forall i :: 0 <= i < |refs| ==> refs[i].fact == f && refs[i].revision == Version(w.tables, f)
    ensures Present(u, p, refs, n)
  {
    forall i | 0 <= i < n ensures Located(p, refs[i]) in u.graph {
      assert Located(p, refs[i]) in w.graph;
    }
  }

  lemma DeleteKeepsInserted(g: GraphSettings, w: World, u: World, located: Located, c: ClaimedChange, fact: FactRecord, n: nat)
    requires u == w.(graph := w.graph - {located}) && InsertedOk(g, w, c, fact, n)
    requires located.ref.revision < Version(w.tables, located.ref.fact)
    ensures InsertedOk(g, u, c, fact, n)
  {
    var entry := EntryFor(g, fact, c.event);
    if fact.revision == Version(w.tables, fact.key) {
      DeleteKeepsPresent(g, w, u, located, entry.partition, entry.refs, n, fact.key);
    }
  }

  lemma DeleteKeepsCheckpoints(g: GraphSettings, w: World, u: World, located: Located)
    requires CheckpointsOk(g, w) && u == w.(graph := w.graph - {located})
    requires located.ref.revision < Version(w.tables, located.ref.fact)
    ensures CheckpointsOk(g, u)
  {
    forall f <- u.checkpoints | u.checkpoints[f].version == Version(u.tables, f)
      ensures Present(u, u.checkpoints[f].partition, u.checkpoints[f].refs, |u.checkpoints[f].refs|)
    {
      DeleteKeepsPresent(g, w, u, located, w.checkpoints[f].partition, w.checkpoints[f].refs, |w.checkpoints[f].refs|, f);
    }
  }

  lemma DeleteKeepsWorld(g: GraphSettings, w: World, u: World, located: Located)
    requires WorldInv(g, w) && u == w.(graph := w.graph - {located})
    requires located.ref.revision < Version(w.tables, located.ref.fact)
    ensures WorldInv(g, u)
  {
    hide InRange, OneRevision, NoGaps, Paired, HeadsAgree, CreatorsAgree, LastInvalidated;
    hide Relations, PromotionRows, PromotionSources, OnePending, ApprovalsTaken, PromotedApproved, ContentPinned;
    hide LeasesOk, ClaimedInOrder, Recorded, Open, IsEntry;
    DeleteKeepsCheckpoints(g, w, u, located);
    hide CheckpointsOk, InsertedOk;
    forall c <- u.workers ensures WorkerOk(g, u, c) {
      assert WorkerOk(g, w, c);
      match w.workers[c]
      case Inserting(fact, _, n) => DeleteKeepsInserted(g, w, u, located, c, fact, n);
      case Deleting(fact, _, _) => DeleteKeepsInserted(g, w, u, located, c, fact, |EntryFor(g, fact, c.event).refs|);
      case Putting(fact) => DeleteKeepsInserted(g, w, u, located, c, fact, |EntryFor(g, fact, c.event).refs|);
      case _ =>
    }
    forall e <- u.tables.events | u.tables.events[e].processedAt.Some? ensures Indexed(u, e) {
      assert Indexed(w, e);
    }
  }

  lemma EntryOfRead(g: GraphSettings, t: Tables, c: ClaimedChange, fact: FactRecord)
    requires c.event in t.events && ReadOk(t, c.event, fact) && t.events[c.event].version >= 1
    ensures IsEntry(g, t, fact.key, EntryFor(g, fact, c.event))
  {
  }

  lemma PutKeepsCheckpoints(g: GraphSettings, w: World, u: World, c: ClaimedChange, fact: FactRecord)
    requires CheckpointsOk(g, w) && EventsPositive(w.tables) && c.event in w.tables.events
    requires ReadOk(w.tables, c.event, fact) && InsertedOk(g, w, c, fact, |EntryFor(g, fact, c.event).refs|)
    requires u == w.(checkpoints := PutIfNewer(w.checkpoints, fact.key, EntryFor(g, fact, c.event)))
    ensures CheckpointsOk(g, u)
    ensures Indexed(u, c.event)
  {
    EntryOfRead(g, w.tables, c, fact);
  }

  lemma PutKeepsWorld(g: GraphSettings, w: World, u: World, c: ClaimedChange, fact: FactRecord)
    requires WorldInv(g, w) && c in w.workers && w.workers[c] == Putting(fact)
    requires u == w.(checkpoints := PutIfNewer(w.checkpoints, fact.key, EntryFor(g, fact, c.event)))
    ensures WorldInv(g, u) && Indexed(u, c.event)
  {
    hide InRange, OneRevision, NoGaps, Paired, HeadsAgree, CreatorsAgree, LastInvalidated;
    hide Relations, PromotionRows, PromotionSources, OnePending, ApprovalsTaken, PromotedApproved, ContentPinned;
    hide LeasesOk, ClaimedInOrder, Recorded, Open, IsEntry;
    assert WorkerOk(g, w, c);
    InvGivesPositive(w.tables);
    hide EventsPositive;
    PutKeepsCheckpoints(g, w, u, c, fact);
    hide CheckpointsOk;
    forall d <- u.workers ensures WorkerOk(g, u, d) {
      assert WorkerOk(g, w, d);
    }
    forall e <- u.tables.events | u.tables.events[e].processedAt.Some? ensures Indexed(u, e) {
      assert Indexed(w, e);
    }
  }

  /** What an owner may do to its event: finish it, keep it longer, or give it back. */
  lemma OwnerRedelivers(t: Tables, u: Tables, c: ClaimedChange, until: Time, retryAt: Time, now: Time, maxAttempts: nat)
    requires LeasesOk(t) && Owns(t.events, c)
    requires var v := t.events[c.event];
             || u == t.(events := t.events[c.event := Acked(v, now)])
             || u == t.(events := t.events[c.event := Renewed(v, until)])
             || u == t.(events := t.events[c.event := Failed(v, retryAt, now, maxAttempts)])
    ensures Redelivers(t, u, c.event)
    ensures t.events[c.event].processedAt.None?
  {
  }

  lemma ProceedKeepsWorld(k: Config, w: World, c: ClaimedChange, now: Time)
    requires WorldInv(k.graph, w) && c in w.workers
    ensures WorldInv(k.graph, ProceedStep(k, w, c, now))
  {
    hide InRange, OneRevision, NoGaps, Paired, HeadsAgree, CreatorsAgree, LastInvalidated;
    hide Relations, PromotionRows, PromotionSources, OnePending, ApprovalsTaken, PromotedApproved, ContentPinned;
    hide LeasesOk, ClaimedInOrder, CheckpointsOk, ProcessedIsIndexed, Recorded, IsEntry, Redelivers, RefsOf, GetFact;
    assert WorkerOk(k.graph, w, c);
    var u := ProceedStep(k, w, c, now);
    match w.workers[c]
    case Claimed =>
      ReadHeadOk(w.tables, c.event);
      WorkerMoves(k.graph, w, u, c);
    case HeadRead(fact) =>
      if fact.key in w.checkpoints { ReadProjectionOk(k.graph, w, c, fact); }
      InsertedNothing(k.graph, u, c, fact);
      WorkerMoves(k.graph, w, u, c);
    case Inserting(fact, previous, n) =>
      var entry := EntryFor(k.graph, fact, c.event);
      if n < |entry.refs| {
        var m := w.(graph := w.graph + {Located(entry.partition, entry.refs[n])});
        InsertKeepsWorld(k.graph, w, m, Located(entry.partition, entry.refs[n]));
        InsertedOneMore(k.graph, w, u, c, fact, n);
        WorkerMoves(k.graph, m, u, c);
      } else {
        WorkerMoves(k.graph, w, u, c);
      }
    case Deleting(fact, previous, n) =>
      if previous.Some? && n < |previous.value.refs| {
        var located := Located(previous.value.partition, previous.value.refs[n]);
        var m := w.(graph := w.graph - {located});
        OldRefIsOld(k.graph, w.tables, fact, previous, n);
        DeleteKeepsWorld(k.graph, w, m, located);
        DeleteKeepsInserted(k.graph, w, m, located, c, fact, |EntryFor(k.graph, fact, c.event).refs|);
        WorkerMoves(k.graph, m, u, c);
      } else {
        WorkerMoves(k.graph, w, u, c);
      }
    case Putting(fact) =>
      var m := w.(checkpoints := PutIfNewer(w.checkpoints, fact.key, EntryFor(k.graph, fact, c.event)));
      PutKeepsWorld(k.graph, w, m, c, fact);
      WorkerMoves(k.graph, m, u, c);
    case Acking =>
      if Owns(w.tables.events, c) {
        var m := WithEvents(w, w.tables.events[c.event := Acked(w.tables.events[c.event], now)]);
        OwnerRedelivers(w.tables, m.tables, c, 0, 0, now, 0);
        RedeliveryKeepsWorld(k, w, m, c.event);
        WorkerMoves(k.graph, m, u, c);
      } else {
        WorkerMoves(k.graph, w, u, c);
      }
    case Failing =>
  }

  lemma InsertedNothing(g: GraphSettings, w: World, c: ClaimedChange, fact: FactRecord)
    ensures InsertedOk(g, w, c, fact, 0)
  {
  }

  lemma InsertedOneMore(g: GraphSettings, w: World, u: World, c: ClaimedChange, fact: FactRecord, n: nat)
    requires InsertedOk(g, w, c, fact, n) && n < |EntryFor(g, fact, c.event).refs| && u.tables == w.tables
    requires var entry := EntryFor(g, fact, c.event); u.graph == w.graph + {Located(entry.partition, entry.refs[n])}
    ensures InsertedOk(g, u, c, fact, n + 1)
  {
  }

  /** A worker only ever deletes refs of a version older than a head it has read. */
  lemma OldRefIsOld(g: GraphSettings, t: Tables, fact: FactRecord, previous: Option<Checkpoint>, n: nat)
    requires PreviousOk(g, t, fact, previous) && previous.Some? && n < |previous.value.refs|
    requires fact.revision <= Version(t, fact.key)
    ensures previous.value.refs[n].revision < Version(t, previous.value.refs[n].fact)
  {
  }

  lemma StepKeepsWorld(k: Config, w: World, s: Step)
    requires WorldInv(k.graph, w)
    ensures WorldInv(k.graph, Next(k, w, s))
  {
    hide InRange, OneRevision, NoGaps, Paired, HeadsAgree, CreatorsAgree, LastInvalidated;
    hide Relations, PromotionRows, PromotionSources, OnePending, ApprovalsTaken, PromotedApproved, ContentPinned;
    hide LeasesOk, ClaimedInOrder, CheckpointsOk, ProcessedIsIndexed, WorkersOk, Recorded, Redelivers, Claimable;
    var u := Next(k, w, s);
    match s
    case Write(a) => WriteKeepsWorld(k, w, a);
    case Grant(chosen, consumer, until, now) => if u != w { GrantKeepsWorld(k, w, chosen, consumer, until, now); }
    case Proceed(c, now) => if c in w.workers { ProceedKeepsWorld(k, w, c, now); }
    case Heartbeat(c, until) =>
      if c in w.workers && !w.workers[c].Failing? {
        if Owns(w.tables.events, c) && !Done(w.tables.events[c.event]) {
          OwnerRedelivers(w.tables, u.tables, c, until, 0, 0, 0);
          RedeliveryKeepsWorld(k, w, u, c.event);
        } else {
          FailingWorker(k.graph, w, u, c);
        }
      }
    case Raise(c) => if c in w.workers { FailingWorker(k.graph, w, u, c); }
    case Release(c, retryAt, now) =>
      if c in w.workers && w.workers[c].Failing? {
        if Owns(w.tables.events, c) {
          var m := w.(tables := u.tables);
          OwnerRedelivers(w.tables, u.tables, c, 0, retryAt, now, k.maxAttempts);
          RedeliveryKeepsWorld(k, w, m, c.event);
          WorkerMoves(k.graph, m, u, c);
        } else {
          WorkerMoves(k.graph, w, u, c);
        }
      }
    case Crash(c) =>
      if c in w.workers {
        WorkerMoves(k.graph, w, u, c);
      } else {
        assert w.workers - {c} == w.workers;
      }
  }

  lemma FailingWorker(g: GraphSettings, w: World, u: World, c: ClaimedChange)
    requires WorldInv(g, w) && c in w.workers && u == w.(workers := w.workers[c := Failing])
    ensures WorldInv(g, u)
  {
    hide InRange, OneRevision, NoGaps, Paired, HeadsAgree, CreatorsAgree, LastInvalidated;
    hide Relations, PromotionRows, PromotionSources, OnePending, ApprovalsTaken, PromotedApproved, ContentPinned;
    hide LeasesOk, ClaimedInOrder, CheckpointsOk, ProcessedIsIndexed, Recorded;
    assert WorkerOk(g, w, c);
    WorkerMoves(g, w, u, c);
  }

  lemma StartIsOk(g: GraphSettings)
    ensures WorldInv(g, START)
  {
  }
}
