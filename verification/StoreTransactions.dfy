/** Every write transaction keeps the invariant of the fact store. */
module StoreTransactions {
  import opened Domain
  import opened Tables
  import opened StoreInvariant

  /** Nothing but relations and idempotency records differ. */
  ghost predicate SameFacts(t: Tables, u: Tables) {
    u == t.(idempotency := u.idempotency, relations := u.relations)
  }

  lemma SameFactsKeepRevisions(t: Tables, u: Tables)
    requires InRange(t) && OneRevision(t) && NoGaps(t) && SameFacts(t, u)
    ensures InRange(u) && OneRevision(u) && NoGaps(u)
  {
    forall f, v | 1 <= v <= Version(u, f) ensures HasRevision(u, f, v) {
      assert HasRevision(t, f, v);
      var r :| RevisionAt(t, f, v, r);
      assert RevisionAt(u, f, v, r);
    }
  }

  lemma SameFactsKeepPairs(t: Tables, u: Tables)
    requires Paired(t) && HeadsAgree(t) && CreatorsAgree(t) && LastInvalidated(t) && SameFacts(t, u)
    ensures Paired(u) && HeadsAgree(u) && CreatorsAgree(u) && LastInvalidated(u)
  {
  }

  lemma SameFactsKeepApprovals(t: Tables, u: Tables)
    requires ApprovalsTaken(t) && PromotedApproved(t) && ContentPinned(t) && SameFacts(t, u)
    ensures ApprovalsTaken(u) && PromotedApproved(u) && ContentPinned(u)
  {
    forall r <- u.revisions | r in u.events && u.events[r].op == Promoted
      ensures HasApproval(u, u.revisions[r].fact, u.revisions[r].version)
    {
      assert HasApproval(t, t.revisions[r].fact, t.revisions[r].version);
      var q :| ApprovedAt(t, t.revisions[r].fact, t.revisions[r].version, q);
      assert ApprovedAt(u, t.revisions[r].fact, t.revisions[r].version, q);
    }
  }

  lemma SameFactsKeepCore(t: Tables, u: Tables)
    requires Core(t) && SameFacts(t, u) && Relations(u)
    ensures Core(u)
  {
    hide InRange, OneRevision, NoGaps, Paired, HeadsAgree, CreatorsAgree, LastInvalidated;
    hide Relations, PromotionRows, PromotionSources, OnePending, ApprovalsTaken, PromotedApproved, ContentPinned;
    SameFactsKeepRevisions(t, u);
    SameFactsKeepPairs(t, u);
    SameFactsKeepPromotions(t, u);
    SameFactsKeepApprovals(t, u);
  }

  lemma SameFactsKeepPromotions(t: Tables, u: Tables)
    requires Promotions(t) && SameFacts(t, u)
    ensures Promotions(u)
  {
    forall q <- u.promotions, r | RevisionAt(u, u.promotions[q].fact, u.promotions[q].sourceVersion, r)
      ensures Promotable(u.revisions[r])
    {
      assert RevisionAt(t, t.promotions[q].fact, t.promotions[q].sourceVersion, r);
    }
  }

  lemma RelationsIgnoreIdempotency(t: Tables, u: Tables)
    requires Relations(t) && u == t.(idempotency := u.idempotency)
    ensures Relations(u)
  {
    forall x <- u.relations, r | RevisionAt(u, x.to, 1, r) ensures r < x.createdRevision {
      assert RevisionAt(t, x.to, 1, r);
    }
  }

  lemma CoreIgnoresIdempotency(t: Tables, u: Tables)
    requires Core(t) && u == t.(idempotency := u.idempotency)
    ensures Core(u)
  {
    hide InRange, OneRevision, NoGaps, Paired, HeadsAgree, CreatorsAgree, LastInvalidated;
    hide Relations, PromotionRows, PromotionSources, OnePending, ApprovalsTaken, PromotedApproved, ContentPinned;
    RelationsIgnoreIdempotency(t, u);
    SameFactsKeepCore(t, u);
  }

  lemma AdvanceKeepsCore(t: Tables, u: Tables, f: FactKey, r: Revision, op: ChangeOperation, now: Time)
    requires Core(t) && Advances(t, u, f, r, op, now) && op != Promoted
    requires f in t.heads ==> t.heads[f].status == Active
    requires (op == Created <==> f !in t.heads) && (op == WasInvalidated <==> r.status == Invalidated)
    requires f in t.heads ==> f in t.heads && t.heads[f].currentRevision in t.revisions && Succeeds(op, r, t.revisions[t.heads[f].currentRevision])
    ensures Core(u)
  {
    hide InRange, OneRevision, NoGaps, Paired, HeadsAgree, CreatorsAgree, LastInvalidated;
    hide Relations, PromotionRows, PromotionSources, OnePending, ApprovalsTaken, PromotedApproved, ContentPinned;
    AdvanceKeepsRevisions(t, u, f, r, op, now);
    AdvanceKeepsPairs(t, u, f, r, op, now);
    AdvanceKeepsLastInvalidated(t, u, f, r, op, now);
    AdvanceKeepsCreators(t, u, f, r, op, now);
    AdvanceKeepsRelations(t, u, f, r, op, now);
    AdvanceKeepsPromotions(t, u, f, r, op, now);
    AdvanceKeepsApprovals(t, u, f, r, op, now);
    AdvanceKeepsPinned(t, u, f, r, op, now);
  }

  lemma InsertFactKeepsCore(t: Tables, actor: Actor, command: CreateFact, now: Time)
    requires Core(t) && FactKey(actor.org, command.factId) !in t.heads
    ensures Core(InsertFact(t, actor, command, now))
  {
    hide InRange, OneRevision, NoGaps, Paired, HeadsAgree, CreatorsAgree, LastInvalidated;
    hide Relations, PromotionRows, PromotionSources, OnePending, ApprovalsTaken, PromotedApproved, ContentPinned;
    var f := FactKey(actor.org, command.factId);
    var u := InsertFact(t, actor, command, now);
    AdvanceKeepsCore(t, u, f, u.revisions[t.uuids], Created, now);
  }

  /** l is an active head of f as it was locked, whether or not f has moved since. */
  ghost predicate LockedIn(t: Tables, f: FactKey, l: Locked) {
    && f in t.heads
    && l.head.currentRevision in t.revisions
    && var r := t.revisions[l.head.currentRevision];
    && r.fact == f && r.version == l.head.currentVersion && r.payload == l.payload && r.status == Active
  }

  /** A locked head is still current exactly when no later version was written. */
  lemma InvalidateLockedAdvances(t: Tables, actor: Actor, f: FactKey, l: Locked, reason: string, now: Time)
    requires InRange(t) && OneRevision(t) && HeadsAgree(t) && LockedIn(t, f, l)
    ensures InvalidateLocked(t, actor, f, l, reason, now).Ok? <==> t.heads[f].currentVersion == l.head.currentVersion
    ensures InvalidateLocked(t, actor, f, l, reason, now).Ok? ==>
              var u := InvalidateLocked(t, actor, f, l, reason, now).value.0;
              && Advances(t, u, f, u.revisions[t.uuids], WasInvalidated, now)
              && u.revisions[t.uuids].status == Invalidated
              && t.heads[f].status == Active && u.heads[f].status == Invalidated
              && t.heads[f].currentRevision in t.revisions
              && Succeeds(WasInvalidated, u.revisions[t.uuids], t.revisions[t.heads[f].currentRevision])
  {
    if t.heads[f].currentVersion == l.head.currentVersion {
      LockedIsCurrent(t, f, l);
      hide InRange, OneRevision, HeadsAgree, VersionTaken, Advances;
      LockedAdvances(t, actor, f, l, reason, now);
    }
  }

  lemma LockedAdvances(t: Tables, actor: Actor, f: FactKey, l: Locked, reason: string, now: Time)
    requires f in t.heads && l.head.currentRevision in t.revisions && t.heads[f].currentVersion == l.head.currentVersion
    requires Agrees(t.heads[f], t.revisions[l.head.currentRevision]) && t.revisions[l.head.currentRevision].payload == l.payload
    requires InvalidateLocked(t, actor, f, l, reason, now).Ok?
    ensures var u := InvalidateLocked(t, actor, f, l, reason, now).value.0;
            t.uuids in u.revisions && Advances(t, u, f, u.revisions[t.uuids], WasInvalidated, now)
  {
    hide VersionTaken;
  }

  /** A lock that still has the head's version holds the head's own revision, and no later one exists. */
  lemma LockedIsCurrent(t: Tables, f: FactKey, l: Locked)
    requires InRange(t) && OneRevision(t) && HeadsAgree(t) && LockedIn(t, f, l)
    requires t.heads[f].currentVersion == l.head.currentVersion
    ensures t.heads[f].currentRevision == l.head.currentRevision && t.heads[f].status == Active
    ensures Agrees(t.heads[f], t.revisions[l.head.currentRevision])
    ensures !VersionTaken(t, f, l.head.currentVersion + 1)
  {
  }

  lemma InvalidateLockedKeepsCore(t: Tables, actor: Actor, f: FactKey, l: Locked, reason: string, now: Time)
    requires Core(t) && LockedIn(t, f, l)
    ensures InvalidateLocked(t, actor, f, l, reason, now).Ok? ==>
              Core(InvalidateLocked(t, actor, f, l, reason, now).value.0)
  {
    hide InRange, OneRevision, NoGaps, Paired, HeadsAgree, CreatorsAgree, LastInvalidated;
    hide Relations, PromotionRows, PromotionSources, OnePending, ApprovalsTaken, PromotedApproved, ContentPinned;
    InvalidateLockedAdvances(t, actor, f, l, reason, now);
    if InvalidateLocked(t, actor, f, l, reason, now).Ok? {
      var u := InvalidateLocked(t, actor, f, l, reason, now).value.0;
      AdvanceKeepsCore(t, u, f, u.revisions[t.uuids], WasInvalidated, now);
    }
  }

  ghost predicate Relatable(t: Tables, x: Relation) {
    && x.from in t.heads && x.to in t.heads && t.heads[x.to].status == Invalidated
    && RevisionAt(t, x.from, 1, x.createdRevision)
    && (forall r :: RevisionAt(t, x.to, 1, r) ==> r < x.createdRevision)
    && (forall y <- t.relations :: y.to != x.to)
  }

  lemma RelationKeepsRelations(t: Tables, x: Relation)
    requires Relations(t) && Relatable(t, x)
    ensures Relations(t.(relations := t.relations + {x}))
  {
    var u := t.(relations := t.relations + {x});
    forall y <- u.relations, r | RevisionAt(u, y.to, 1, r) ensures r < y.createdRevision {
      assert RevisionAt(t, y.to, 1, r);
    }
  }

  lemma RelationKeepsCore(t: Tables, x: Relation)
    requires Core(t) && Relatable(t, x)
    ensures Core(t.(relations := t.relations + {x}))
  {
    hide InRange, OneRevision, NoGaps, Paired, HeadsAgree, CreatorsAgree, LastInvalidated;
    hide Relations, PromotionRows, PromotionSources, OnePending, ApprovalsTaken, PromotedApproved, ContentPinned;
    RelationKeepsRelations(t, x);
    SameFactsKeepCore(t, t.(relations := t.relations + {x}));
  }

  // ---- create -----------------------------------------------------------------------------

  /** What a create has established when it starts to supersede its targets. */
  ghost predicate Superseding(t: Tables, org: OrgId, newId: string, rid: Uuid, targets: seq<string>, locked: map<string, Locked>) {
    && RevisionAt(t, FactKey(org, newId), 1, rid)
    && FactKey(org, newId) in t.heads
    && (forall id <- targets ::
          && id in locked && id != newId && LockedIn(t, FactKey(org, id), locked[id])
          && forall r :: RevisionAt(t, FactKey(org, id), 1, r) ==> r < rid)
  }

  /** One target: invalidated, then related to its replacement. */
  lemma SupersedeOneKeepsCore(t: Tables, u: Tables, actor: Actor, newId: string, rid: Uuid,
                              targets: seq<string>, locked: map<string, Locked>, now: Time)
    requires Core(t) && targets != [] && Superseding(t, actor.org, newId, rid, targets, locked)
    requires var r := InvalidateLocked(t, actor, FactKey(actor.org, targets[0]), locked[targets[0]], ReplacedBy(newId), now);
             r.Ok? && u == r.value.0
    ensures var x := Relation(FactKey(actor.org, newId), FactKey(actor.org, targets[0]), rid);
            var w := u.(relations := u.relations + {x});
            Core(w) && Superseding(w, actor.org, newId, rid, targets[1..], locked)
  {
    hide InRange, OneRevision, NoGaps, Paired, HeadsAgree, CreatorsAgree, LastInvalidated;
    hide Relations, PromotionRows, PromotionSources, OnePending, ApprovalsTaken, PromotedApproved, ContentPinned, Relatable;
    var f := FactKey(actor.org, targets[0]);
    var x := Relation(FactKey(actor.org, newId), f, rid);
    InvalidateLockedKeepsCore(t, actor, f, locked[targets[0]], ReplacedBy(newId), now);
    InvalidateLockedAdvances(t, actor, f, locked[targets[0]], ReplacedBy(newId), now);
    NewVersionIsLater(t, u, f, now);
    SupersedeOneRelatable(t, u, x, now);
    RelationKeepsCore(u, x);
    SupersedeOneKeepsTargets(t, u.(relations := u.relations + {x}), actor.org, newId, rid, f, targets, locked);
  }

  lemma NewVersionIsLater(t: Tables, u: Tables, f: FactKey, now: Time)
    requires HeadsAgree(t) && f in t.heads
    requires t.uuids in u.revisions && Advances(t, u, f, u.revisions[t.uuids], WasInvalidated, now)
    ensures u.revisions[t.uuids].version > 1
  {
  }

  lemma SupersedeOneRelatable(t: Tables, u: Tables, x: Relation, now: Time)
    requires InRange(t) && HeadsAgree(t) && Relations(t)
    requires x.to in t.heads && t.heads[x.to].status == Active && x.from in t.heads && x.from != x.to
    requires RevisionAt(t, x.from, 1, x.createdRevision)
    requires forall r :: RevisionAt(t, x.to, 1, r) ==> r < x.createdRevision
    requires t.uuids in u.revisions && Advances(t, u, x.to, u.revisions[t.uuids], WasInvalidated, now)
    requires u.heads[x.to].status == Invalidated
    ensures Relatable(u, x)
  {
    assert u.revisions[t.uuids].version > 1;
    forall r | RevisionAt(u, x.to, 1, r) ensures r < x.createdRevision {
      assert RevisionAt(t, x.to, 1, r);
    }
  }

  lemma SupersedeOneKeepsTargets(t: Tables, w: Tables, org: OrgId, newId: string, rid: Uuid, f: FactKey,
                                 targets: seq<string>, locked: map<string, Locked>)
    requires InRange(t) && targets != [] && Superseding(t, org, newId, rid, targets, locked)
    requires w.heads.Keys == t.heads.Keys && w.uuids == t.uuids + 1
    requires t.uuids in w.revisions && w.revisions == t.revisions[t.uuids := w.revisions[t.uuids]]
    requires w.revisions[t.uuids].version > 1
    ensures Superseding(w, org, newId, rid, targets[1..], locked)
  {
    forall id <- targets[1..]
      ensures id in locked && id != newId && LockedIn(w, FactKey(org, id), locked[id])
    {
      assert id in targets;
    }
    forall id <- targets[1..], r | RevisionAt(w, FactKey(org, id), 1, r)
      ensures r < rid
    {
      assert id in targets && RevisionAt(t, FactKey(org, id), 1, r);
    }
  }

  lemma {:induction false} SupersedeAllKeepsCore(t: Tables, actor: Actor, newId: string, rid: Uuid,
                                                 targets: seq<string>, locked: map<string, Locked>, now: Time)
    requires Core(t) && Superseding(t, actor.org, newId, rid, targets, locked)
    ensures SupersedeAll(t, actor, newId, rid, targets, locked, now).Ok? ==>
              Core(SupersedeAll(t, actor, newId, rid, targets, locked, now).value)
    decreases |targets|
  {
    hide Core;
    if targets != [] {
      var f := FactKey(actor.org, targets[0]);
      var r := InvalidateLocked(t, actor, f, locked[targets[0]], ReplacedBy(newId), now);
      if r.Ok? {
        var u := r.value.0;
        SupersedeOneKeepsCore(t, u, actor, newId, rid, targets, locked, now);
        var x := Relation(FactKey(actor.org, newId), f, rid);
        SupersedeAllKeepsCore(u.(relations := u.relations + {x}), actor, newId, rid, targets[1..], locked, now);
      }
    }
  }

  lemma SupersedingStarts(t: Tables, actor: Actor, command: CreateFact, now: Time)
    requires InRange(t) && HeadsAgree(t) && HeadsHaveRevisions(t)
    requires FactKey(actor.org, command.factId) !in t.heads
    requires forall id <- command.supersedes ::
               FactKey(actor.org, id) in t.heads && t.heads[FactKey(actor.org, id)].status == Active
    ensures Superseding(InsertFact(t, actor, command, now), actor.org, command.factId, t.uuids, command.supersedes,
                        LockedHeads(t, actor.org, command.supersedes))
  {
    var u := InsertFact(t, actor, command, now);
    forall id <- command.supersedes, r | RevisionAt(u, FactKey(actor.org, id), 1, r)
      ensures r < t.uuids
    {
      assert RevisionAt(t, FactKey(actor.org, id), 1, r);
    }
  }

  lemma CoreHasRevisions(t: Tables)
    requires Core(t)
    ensures HeadsHaveRevisions(t) && HeadsAgree(t) && InRange(t)
    ensures forall q <- t.promotions :: t.promotions[q].fact in t.heads
  {
  }

  lemma CreateBodyKeepsCore(t: Tables, actor: Actor, command: CreateFact, expected: map<string, int>, now: Time)
    requires Core(t) && HeadsHaveRevisions(t)
    ensures CreateBody(t, actor, command, expected, now).Ok? ==>
              Core(CreateBody(t, actor, command, expected, now).value.0)
  {
    CoreHasRevisions(t);
    hide Core, HeadsAgree, InRange;
    if CreateBody(t, actor, command, expected, now).Ok? {
      SupersedeErrorNone(t, actor.org, command.supersedes, expected);
      InsertFactKeepsCore(t, actor, command, now);
      SupersedingStarts(t, actor, command, now);
      SupersedeAllKeepsCore(InsertFact(t, actor, command, now), actor, command.factId, t.uuids, command.supersedes,
                            LockedHeads(t, actor.org, command.supersedes), now);
    }
  }

  lemma InvalidateBodyKeepsCore(t: Tables, actor: Actor, command: InvalidateFact, expected: int, now: Time)
    requires Core(t) && HeadsHaveRevisions(t)
    ensures InvalidateBody(t, actor, command, expected, now).Ok? ==>
              Core(InvalidateBody(t, actor, command, expected, now).value.0)
  {
    var f := FactKey(actor.org, command.factId);
    if InvalidateBody(t, actor, command, expected, now).Ok? {
      CoreHasRevisions(t);
      hide Core;
      InvalidateLockedKeepsCore(t, actor, f, LockHead(t, f).value, command.reason, now);
    }
  }

  // ---- promotions -------------------------------------------------------------------------

  /** Nothing but promotion requests, their decisions and the identity counter differ. */
  ghost predicate SameRevisions(t: Tables, u: Tables) {
    u == t.(promotions := u.promotions, decisions := u.decisions, uuids := u.uuids) && t.uuids <= u.uuids
  }

  lemma SameRevisionsKeepVersions(t: Tables, u: Tables)
    requires InRange(t) && OneRevision(t) && NoGaps(t) && SameRevisions(t, u)
    ensures InRange(u) && OneRevision(u) && NoGaps(u)
  {
    forall f, v | 1 <= v <= Version(u, f) ensures HasRevision(u, f, v) {
      assert HasRevision(t, f, v);
      var r :| RevisionAt(t, f, v, r);
      assert RevisionAt(u, f, v, r);
    }
  }

  lemma SameRevisionsKeepPairs(t: Tables, u: Tables)
    requires Paired(t) && HeadsAgree(t) && CreatorsAgree(t) && LastInvalidated(t) && ContentPinned(t) && SameRevisions(t, u)
    ensures Paired(u) && HeadsAgree(u) && CreatorsAgree(u) && LastInvalidated(u) && ContentPinned(u)
  {
  }

  lemma SameRevisionsKeepRelations(t: Tables, u: Tables)
    requires Relations(t) && SameRevisions(t, u)
    ensures Relations(u)
  {
    forall x <- u.relations, r | RevisionAt(u, x.to, 1, r) ensures r < x.createdRevision {
      assert RevisionAt(t, x.to, 1, r);
    }
  }

  /** Approved requests are the same in both. */
  lemma SameApprovalsKept(t: Tables, u: Tables)
    requires ApprovalsTaken(t) && PromotedApproved(t) && SameRevisions(t, u)
    requires forall q <- u.promotions :: u.promotions[q].status == Approved ==> q in t.promotions && u.promotions[q] == t.promotions[q]
    requires forall q <- t.promotions :: t.promotions[q].status == Approved ==> q in u.promotions && u.promotions[q] == t.promotions[q]
    ensures ApprovalsTaken(u) && PromotedApproved(u)
  {
    forall r <- u.revisions | r in u.events && u.events[r].op == Promoted
      ensures HasApproval(u, u.revisions[r].fact, u.revisions[r].version)
    {
      assert HasApproval(t, t.revisions[r].fact, t.revisions[r].version);
      var q :| ApprovedAt(t, t.revisions[r].fact, t.revisions[r].version, q);
      assert ApprovedAt(u, t.revisions[r].fact, t.revisions[r].version, q);
    }
  }

  lemma ProposeKeepsRows(t: Tables, actor: Actor, factId: string, reason: string, now: Time)
    requires HeadsAgree(t) && PromotionRows(t) && OnePending(t)
    requires ProposeBody(t, actor, factId, reason, now).Ok?
    ensures PromotionRows(ProposeBody(t, actor, factId, reason, now).value.0)
    ensures OnePending(ProposeBody(t, actor, factId, reason, now).value.0)
  {
    ProposeKeepsOne(t, actor, factId, reason, now);
    hide OnePending, HasPending, IsDomainNamespace;
  }

  lemma ProposeKeepsOne(t: Tables, actor: Actor, factId: string, reason: string, now: Time)
    requires PromotionRows(t) && OnePending(t) && ProposeBody(t, actor, factId, reason, now).Ok?
    ensures OnePending(ProposeBody(t, actor, factId, reason, now).value.0)
  {
    assert forall q <- t.promotions :: q < t.uuids;
    hide PromotionRows, IsDomainNamespace;
  }

  lemma ProposeKeepsSources(t: Tables, actor: Actor, factId: string, reason: string, now: Time)
    requires OneRevision(t) && HeadsAgree(t) && PromotionSources(t)
    requires ProposeBody(t, actor, factId, reason, now).Ok?
    ensures PromotionSources(ProposeBody(t, actor, factId, reason, now).value.0)
  {
    var u := ProposeBody(t, actor, factId, reason, now).value.0;
    var f := FactKey(actor.org, factId);
    forall q <- u.promotions, r | RevisionAt(u, u.promotions[q].fact, u.promotions[q].sourceVersion, r)
      ensures Promotable(u.revisions[r])
    {
      if q == t.uuids {
        assert r == t.heads[f].currentRevision;
      } else {
        assert RevisionAt(t, t.promotions[q].fact, t.promotions[q].sourceVersion, r);
      }
    }
  }

  lemma ProposeBodyKeepsCore(t: Tables, actor: Actor, factId: string, reason: string, now: Time)
    requires Core(t)
    requires ProposeBody(t, actor, factId, reason, now).Ok?
    ensures Core(ProposeBody(t, actor, factId, reason, now).value.0)
  {
    hide InRange, OneRevision, NoGaps, Paired, HeadsAgree, CreatorsAgree, LastInvalidated;
    hide Relations, PromotionRows, PromotionSources, OnePending, ApprovalsTaken, PromotedApproved, ContentPinned;
    FreshPromotion(t);
    var u := ProposeBody(t, actor, factId, reason, now).value.0;
    SameRevisionsKeepVersions(t, u);
    SameRevisionsKeepPairs(t, u);
    SameRevisionsKeepRelations(t, u);
    SameApprovalsKept(t, u);
    ProposeKeepsRows(t, actor, factId, reason, now);
    ProposeKeepsSources(t, actor, factId, reason, now);
  }

  lemma FreshPromotion(t: Tables)
    requires PromotionRows(t)
    ensures t.uuids !in t.promotions
  {
  }

  /** u settles the pending request q of t, with a decision unless it went stale. */
  ghost predicate Settles(t: Tables, u: Tables, q: Uuid, status: RequestStatus) {
    && q in t.promotions && t.promotions[q].status == Pending && status != Pending
    && q in u.promotions
    && u.promotions == t.promotions[q := t.promotions[q].(status := status, updatedAt := u.promotions[q].updatedAt)]
    && (status == Stale ==> u.decisions == t.decisions)
    && (status != Stale ==> q in u.decisions && u.decisions == t.decisions[q := u.decisions[q]]
                            && VerdictStatus(u.decisions[q].verdict) == status)
  }

  lemma SettleKeepsEachRow(t: Tables, u: Tables, q: Uuid, status: RequestStatus)
    requires PromotionRows(t) && SameRevisions(t, u) && Settles(t, u, q, status)
    ensures PromotionRows(u)
  {
  }

  lemma SettleKeepsOne(t: Tables, u: Tables, q: Uuid, status: RequestStatus)
    requires OnePending(t) && Settles(t, u, q, status)
    ensures OnePending(u)
  {
  }

  lemma SettleKeepsRows(t: Tables, u: Tables, q: Uuid, status: RequestStatus)
    requires PromotionRows(t) && OnePending(t) && SameRevisions(t, u) && Settles(t, u, q, status)
    ensures PromotionRows(u) && OnePending(u)
  {
    hide PromotionRows, OnePending, SameRevisions, Settles;
    SettleKeepsEachRow(t, u, q, status);
    SettleKeepsOne(t, u, q, status);
  }

  lemma SettleKeepsSources(t: Tables, u: Tables, q: Uuid, status: RequestStatus)
    requires PromotionSources(t) && SameRevisions(t, u) && Settles(t, u, q, status)
    ensures PromotionSources(u)
  {
    forall p <- u.promotions, r | RevisionAt(u, u.promotions[p].fact, u.promotions[p].sourceVersion, r)
      ensures Promotable(u.revisions[r])
    {
      assert RevisionAt(t, t.promotions[p].fact, t.promotions[p].sourceVersion, r);
    }
  }

  lemma SettleKeepsCore(t: Tables, u: Tables, q: Uuid, status: RequestStatus)
    requires Core(t) && SameRevisions(t, u) && Settles(t, u, q, status) && status != Approved
    ensures Core(u)
  {
    hide InRange, OneRevision, NoGaps, Paired, HeadsAgree, CreatorsAgree, LastInvalidated;
    hide Relations, PromotionRows, PromotionSources, OnePending, ApprovalsTaken, PromotedApproved, ContentPinned;
    SameRevisionsKeepVersions(t, u);
    SameRevisionsKeepPairs(t, u);
    SameRevisionsKeepRelations(t, u);
    SameApprovalsKept(t, u);
    SettleKeepsRows(t, u, q, status);
    SettleKeepsSources(t, u, q, status);
  }

  /** A promotion request still at the head's version is at an active head, which is why an approval
      can leave the head's status and kind columns alone. */
  lemma PendingHeadIsActive(t: Tables, q: Uuid)
    requires OneRevision(t) && HeadsAgree(t) && PromotionRows(t) && PromotionSources(t)
    requires q in t.promotions && t.promotions[q].fact in t.heads
    requires t.heads[t.promotions[q].fact].currentVersion == t.promotions[q].sourceVersion
    ensures t.heads[t.promotions[q].fact].status == Active
    ensures Promotable(t.revisions[t.heads[t.promotions[q].fact].currentRevision])
  {
    var f := t.promotions[q].fact;
    assert RevisionAt(t, f, t.promotions[q].sourceVersion, t.heads[f].currentRevision);
  }

  lemma PromoteAdvances(t: Tables, actor: Actor, f: FactKey, rationale: string, now: Time)
    requires HeadsHaveRevisions(t) && HeadsAgree(t) && f in t.heads && t.heads[f].status == Active
    ensures var u := Promote(t, actor, f, rationale, now);
            && Advances(t, u, f, u.revisions[t.uuids], Promoted, now)
            && u.revisions[t.uuids].payload == t.revisions[t.heads[f].currentRevision].payload.(namespace := SHARED)
            && u.revisions[t.uuids].status == Active
  {
  }

  /** u approves q over m, which already holds the version q promotes to. */
  ghost predicate Approves(t: Tables, m: Tables, u: Tables, q: Uuid, r: Revision, now: Time) {
    && q in t.promotions && t.promotions[q].sourceVersion == Version(t, t.promotions[q].fact)
    && Advances(t, m, t.promotions[q].fact, r, Promoted, now)
    && SameRevisions(m, u) && Settles(m, u, q, Approved)
  }

  lemma ApproveKeepsPromoted(t: Tables, m: Tables, u: Tables, q: Uuid, r: Revision, now: Time)
    requires InRange(t) && Paired(t) && ApprovedBelow(t) && ApprovedPromoted(t) && Approves(t, m, u, q, r, now)
    ensures ApprovedPromoted(u)
  {
    assert u.events[t.uuids].op == Promoted;
    assert u.revisions[t.uuids] == r && r.version == t.promotions[q].sourceVersion + 1;
  }

  lemma ApproveKeepsTaken(t: Tables, m: Tables, u: Tables, q: Uuid, r: Revision, now: Time)
    requires InRange(t) && Paired(t) && ApprovalsTaken(t) && Approves(t, m, u, q, r, now)
    ensures ApprovalsTaken(u)
  {
    ApproveKeepsPromoted(t, m, u, q, r, now);
    hide ApprovedPromoted, InRange, Paired;
    var f := t.promotions[q].fact;
    assert forall p <- t.promotions :: t.promotions[p].status == Approved && t.promotions[p].fact == f ==>
                                         t.promotions[p].sourceVersion < t.promotions[q].sourceVersion;
  }

  lemma ApproveKeepsApproved(t: Tables, m: Tables, u: Tables, q: Uuid, r: Revision, now: Time)
    requires InRange(t) && Paired(t) && PromotedApproved(t) && Approves(t, m, u, q, r, now)
    ensures PromotedApproved(u)
  {
    forall i <- u.revisions | i in u.events && u.events[i].op == Promoted
      ensures HasApproval(u, u.revisions[i].fact, u.revisions[i].version)
    {
      if i == t.uuids {
        assert ApprovedAt(u, u.revisions[i].fact, u.revisions[i].version, q);
      } else {
        assert HasApproval(t, t.revisions[i].fact, t.revisions[i].version);
        var p :| ApprovedAt(t, t.revisions[i].fact, t.revisions[i].version, p);
        assert ApprovedAt(u, u.revisions[i].fact, u.revisions[i].version, p);
      }
    }
  }

  lemma ApproveKeepsCore(t: Tables, m: Tables, u: Tables, q: Uuid, r: Revision, now: Time)
    requires Core(t) && Approves(t, m, u, q, r, now) && r.status == Active
    requires t.promotions[q].fact in t.heads
    requires r.payload == t.revisions[t.heads[t.promotions[q].fact].currentRevision].payload.(namespace := SHARED)
    ensures Core(u)
  {
    hide InRange, OneRevision, NoGaps, Paired, HeadsAgree, CreatorsAgree, LastInvalidated;
    hide Relations, PromotionRows, PromotionSources, OnePending, ApprovalsTaken, PromotedApproved, ContentPinned;
    var f := t.promotions[q].fact;
    PendingHeadIsActive(t, q);
    AdvanceKeepsRevisions(t, m, f, r, Promoted, now);
    AdvanceKeepsPairs(t, m, f, r, Promoted, now);
    AdvanceKeepsLastInvalidated(t, m, f, r, Promoted, now);
    AdvanceKeepsCreators(t, m, f, r, Promoted, now);
    AdvanceKeepsRelations(t, m, f, r, Promoted, now);
    AdvanceKeepsPromotions(t, m, f, r, Promoted, now);
    AdvanceKeepsPinned(t, m, f, r, Promoted, now);
    SameRevisionsKeepVersions(m, u);
    SameRevisionsKeepPairs(m, u);
    SameRevisionsKeepRelations(m, u);
    SettleKeepsRows(m, u, q, Approved);
    SettleKeepsSources(m, u, q, Approved);
    ApproveKeepsTaken(t, m, u, q, r, now);
    ApproveKeepsApproved(t, m, u, q, r, now);
  }

  lemma DecideBodyKeepsCore(t: Tables, actor: Actor, q: Uuid, verdict: Verdict, rationale: string, expected: int, now: Time)
    requires Core(t) && HeadsHaveRevisions(t)
    requires forall q <- t.promotions :: t.promotions[q].fact in t.heads
    requires DecideBody(t, actor, q, verdict, rationale, expected, now).Ok?
    ensures Core(DecideBody(t, actor, q, verdict, rationale, expected, now).value.0)
  {
    hide InRange, OneRevision, NoGaps, Paired, HeadsAgree, CreatorsAgree, LastInvalidated;
    hide Relations, PromotionRows, PromotionSources, OnePending, ApprovalsTaken, PromotedApproved, ContentPinned;
    var u := DecideBody(t, actor, q, verdict, rationale, expected, now).value.0;
    var p := t.promotions[q];
    if t.heads[p.fact].currentVersion != p.sourceVersion {
      SettleKeepsCore(t, u, q, Stale);
    } else if verdict == Reject {
      SettleKeepsCore(t, u, q, Rejected);
    } else {
      var m := Promote(t, actor, p.fact, rationale, now);
      PendingHeadIsActive(t, q);
      PromoteAdvances(t, actor, p.fact, rationale, now);
      ApproveKeepsCore(t, m, u, q, m.revisions[t.uuids], now);
    }
  }
}
