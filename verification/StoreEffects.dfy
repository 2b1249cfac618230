/** When a create and an invalidate succeed, and everything they then have changed. */
module StoreEffects {
  import opened Domain
  import opened Ordering
  import opened Tables
  import opened StoreInvariant
  import opened StoreTransactions
  import opened StoreRuns

  /** f was current in t and u holds exactly one more version of it, an invalidated copy. */
  ghost predicate InvalidatedOnce(t: Tables, u: Tables, actor: Actor, f: FactKey, reason: string, now: Time) {
    && f in t.heads && f in u.heads && t.heads[f].currentRevision in t.revisions
    && var rid := u.heads[f].currentRevision;
    && u.heads[f] == t.heads[f].(status := Invalidated, currentVersion := t.heads[f].currentVersion + 1,
                                 currentRevision := rid, updatedBy := actor.id, updatedAt := now)
    && rid in u.revisions
    && u.revisions[rid] == Revision(f, t.heads[f].currentVersion + 1, t.revisions[t.heads[f].currentRevision].payload,
                                    Invalidated, Some(reason), reason, actor.id, now)
  }

  ghost predicate SupersededAll(t: Tables, u: Tables, actor: Actor, newId: string, rid: Uuid, targets: seq<string>, now: Time) {
    && SupersededRows(t, u, actor, newId, rid, targets)
    && (forall id <- targets :: InvalidatedOnce(t, u, actor, FactKey(actor.org, id), ReplacedBy(newId), now))
  }

  ghost predicate SupersededRows(t: Tables, u: Tables, actor: Actor, newId: string, rid: Uuid, targets: seq<string>) {
    && u.relations == t.relations + (set id <- targets :: Relation(FactKey(actor.org, newId), FactKey(actor.org, id), rid))
    && u.heads.Keys == t.heads.Keys
    && (forall r <- t.revisions :: r in u.revisions && u.revisions[r] == t.revisions[r])
    && (forall f <- t.heads :: !(f.org == actor.org && f.id in targets) ==> u.heads[f] == t.heads[f])
    && u.promotions == t.promotions && u.idempotency == t.idempotency
  }

  ghost predicate Current(t: Tables, org: OrgId, targets: seq<string>, locked: map<string, Locked>) {
    forall id <- targets :: id in locked && FactKey(org, id) in t.heads
                            && t.heads[FactKey(org, id)].currentVersion == locked[id].head.currentVersion
  }

  lemma InvalidateLockedEffect(t: Tables, actor: Actor, f: FactKey, l: Locked, reason: string, now: Time)
    requires InRange(t) && OneRevision(t) && HeadsAgree(t) && LockedIn(t, f, l)
    requires InvalidateLocked(t, actor, f, l, reason, now).Ok?
    ensures var u := InvalidateLocked(t, actor, f, l, reason, now).value.0;
            && InvalidatedOnce(t, u, actor, f, reason, now)
            && u.heads == t.heads[f := u.heads[f]]
            && (forall r <- t.revisions :: r in u.revisions && u.revisions[r] == t.revisions[r])
            && u.relations == t.relations && u.promotions == t.promotions && u.idempotency == t.idempotency
  {
    assert t.heads[f].currentVersion == l.head.currentVersion;
    LockedIsCurrent(t, f, l);
    assert t.uuids !in t.revisions;
    hide InRange, OneRevision, HeadsAgree, VersionTaken, Agrees, InvalidatedOnce;
    LockedInvalidates(t, actor, f, l, reason, now);
  }

  /** The unique key of revisions refuses a version if and only if the fact has a revision of that version. */
  lemma IntegrityExactly(t: Tables, actor: Actor, f: FactKey, l: Locked, reason: string, now: Time)
    ensures InvalidateLocked(t, actor, f, l, reason, now) == Err(IntegrityError) <==> HasRevision(t, f, l.head.currentVersion + 1)
  {
    var version := l.head.currentVersion + 1;
    if HasRevision(t, f, version) {
      var r :| RevisionAt(t, f, version, r);
      assert r in t.revisions;
    }
    if VersionTaken(t, f, version) {
      var r :| r in t.revisions && t.revisions[r].fact == f && t.revisions[r].version == version;
      assert RevisionAt(t, f, version, r);
    }
  }

  lemma LockedInvalidates(t: Tables, actor: Actor, f: FactKey, l: Locked, reason: string, now: Time)
    requires LockedIn(t, f, l) && t.heads[f].currentRevision == l.head.currentRevision
    requires InvalidateLocked(t, actor, f, l, reason, now).Ok?
    ensures InvalidatedOnce(t, InvalidateLocked(t, actor, f, l, reason, now).value.0, actor, f, reason, now)
  {
    hide VersionTaken;
  }

  lemma {:induction false} SupersedeAllEffect(t: Tables, actor: Actor, newId: string, rid: Uuid, targets: seq<string>,
                                              locked: map<string, Locked>, now: Time)
    requires Core(t) && Superseding(t, actor.org, newId, rid, targets, locked)
    requires Distinct(targets) && Current(t, actor.org, targets, locked)
    ensures SupersedeAll(t, actor, newId, rid, targets, locked, now).Ok?
    ensures SupersededAll(t, SupersedeAll(t, actor, newId, rid, targets, locked, now).value, actor, newId, rid, targets, now)
    decreases |targets|
  {
    hide InRange, OneRevision, NoGaps, Paired, HeadsAgree, CreatorsAgree, LastInvalidated;
    hide Relations, PromotionRows, PromotionSources, OnePending, ApprovalsTaken, PromotedApproved, ContentPinned;
    hide InvalidateLocked, SupersededAll;
    if targets == [] {
      SupersededNone(t, actor, newId, rid, now);
    } else {
      var f := FactKey(actor.org, targets[0]);
      InvalidateLockedAdvances(t, actor, f, locked[targets[0]], ReplacedBy(newId), now);
      var m := InvalidateLocked(t, actor, f, locked[targets[0]], ReplacedBy(newId), now).value.0;
      var w := m.(relations := m.relations + {Relation(FactKey(actor.org, newId), f, rid)});
      SupersedeOneKeepsCore(t, m, actor, newId, rid, targets, locked, now);
      InvalidateLockedEffect(t, actor, f, locked[targets[0]], ReplacedBy(newId), now);
      CurrentRest(t, w, actor.org, f, targets, locked);
      SupersedeAllEffect(w, actor, newId, rid, targets[1..], locked, now);
      var u := SupersedeAll(w, actor, newId, rid, targets[1..], locked, now).value;
      HeadsLinked(t);
      SupersededOneMore(t, m, u, actor, newId, rid, targets, now);
    }
  }

  lemma HeadsLinked(t: Tables)
    requires HeadsAgree(t)
    ensures forall f <- t.heads :: t.heads[f].currentRevision in t.revisions
  {
  }

  lemma SupersededNone(t: Tables, actor: Actor, newId: string, rid: Uuid, now: Time)
    ensures SupersededAll(t, t, actor, newId, rid, [], now)
  {
  }

  lemma CurrentRest(t: Tables, w: Tables, org: OrgId, f: FactKey, targets: seq<string>, locked: map<string, Locked>)
    requires targets != [] && Distinct(targets) && Current(t, org, targets, locked) && f == FactKey(org, targets[0])
    requires f in w.heads && w.heads == t.heads[f := w.heads[f]]
    ensures Distinct(targets[1..]) && Current(w, org, targets[1..], locked)
  {
    forall id <- targets[1..] ensures id in targets && id != targets[0] {
    }
  }

  lemma SupersededOneMore(t: Tables, m: Tables, u: Tables, actor: Actor, newId: string, rid: Uuid, targets: seq<string>, now: Time)
    requires targets != [] && Distinct(targets)
    requires forall f <- t.heads :: t.heads[f].currentRevision in t.revisions
    requires var f := FactKey(actor.org, targets[0]);
             && InvalidatedOnce(t, m, actor, f, ReplacedBy(newId), now)
             && m.heads == t.heads[f := m.heads[f]]
             && (forall r <- t.revisions :: r in m.revisions && m.revisions[r] == t.revisions[r])
             && m.relations == t.relations && m.promotions == t.promotions && m.idempotency == t.idempotency
             && SupersededAll(m.(relations := m.relations + {Relation(FactKey(actor.org, newId), f, rid)}), u,
                              actor, newId, rid, targets[1..], now)
    ensures SupersededAll(t, u, actor, newId, rid, targets, now)
  {
    var f := FactKey(actor.org, targets[0]);
    var w := m.(relations := m.relations + {Relation(FactKey(actor.org, newId), f, rid)});
    assert targets[0] !in targets[1..];
    assert forall id :: id in targets <==> id == targets[0] || id in targets[1..];
    hide InvalidatedOnce;
    InvalidatedHasHead(t, m, actor, f, ReplacedBy(newId), now);
    RowsOneMore(t, m, u, actor, newId, rid, targets);
    hide SupersededRows;
    RestIsUntouched(w, u, actor, newId, rid, targets[1..], f);
    InvalidatedStays(t, m, u, actor, f, ReplacedBy(newId), now);
    forall id <- targets | id != targets[0] ensures InvalidatedOnce(t, u, actor, FactKey(actor.org, id), ReplacedBy(newId), now) {
      InvalidatedHasHead(w, u, actor, FactKey(actor.org, id), ReplacedBy(newId), now);
      InvalidatedFrom(t, w, u, actor, FactKey(actor.org, id), ReplacedBy(newId), now);
    }
  }

  lemma RestIsUntouched(w: Tables, u: Tables, actor: Actor, newId: string, rid: Uuid, targets: seq<string>, f: FactKey)
    requires SupersededRows(w, u, actor, newId, rid, targets) && f in w.heads && f.org == actor.org && f.id !in targets
    ensures f in u.heads && u.heads[f] == w.heads[f]
    ensures forall r <- w.revisions :: r in u.revisions && u.revisions[r] == w.revisions[r]
  {
  }

  lemma RowsOneMore(t: Tables, m: Tables, u: Tables, actor: Actor, newId: string, rid: Uuid, targets: seq<string>)
    requires targets != []
    requires var f := FactKey(actor.org, targets[0]);
             && f in t.heads && f in m.heads && m.heads == t.heads[f := m.heads[f]]
             && (forall r <- t.revisions :: r in m.revisions && m.revisions[r] == t.revisions[r])
             && m.relations == t.relations && m.promotions == t.promotions && m.idempotency == t.idempotency
             && SupersededRows(m.(relations := m.relations + {Relation(FactKey(actor.org, newId), f, rid)}), u,
                               actor, newId, rid, targets[1..])
    ensures SupersededRows(t, u, actor, newId, rid, targets)
  {
    assert forall id :: id in targets <==> id == targets[0] || id in targets[1..];
  }

  lemma InvalidatedHasHead(t: Tables, u: Tables, actor: Actor, f: FactKey, reason: string, now: Time)
    requires InvalidatedOnce(t, u, actor, f, reason, now)
    ensures f in t.heads && f in u.heads
  {
  }

  lemma InvalidatedStays(t: Tables, m: Tables, u: Tables, actor: Actor, f: FactKey, reason: string, now: Time)
    requires InvalidatedOnce(t, m, actor, f, reason, now) && f in u.heads && u.heads[f] == m.heads[f]
    requires forall r <- m.revisions :: r in u.revisions && u.revisions[r] == m.revisions[r]
    ensures InvalidatedOnce(t, u, actor, f, reason, now)
  {
  }

  lemma {:induction false} SupersedeAllNeedsDistinct(t: Tables, actor: Actor, newId: string, rid: Uuid, targets: seq<string>,
                                                     locked: map<string, Locked>, now: Time)
    requires Core(t) && Superseding(t, actor.org, newId, rid, targets, locked)
    requires SupersedeAll(t, actor, newId, rid, targets, locked, now).Ok?
    ensures Distinct(targets) && Current(t, actor.org, targets, locked)
    decreases |targets|
  {
    hide InRange, OneRevision, NoGaps, Paired, HeadsAgree, CreatorsAgree, LastInvalidated;
    hide Relations, PromotionRows, PromotionSources, OnePending, ApprovalsTaken, PromotedApproved, ContentPinned;
    hide InvalidateLocked;
    if targets != [] {
      var f := FactKey(actor.org, targets[0]);
      InvalidateLockedAdvances(t, actor, f, locked[targets[0]], ReplacedBy(newId), now);
      var m := InvalidateLocked(t, actor, f, locked[targets[0]], ReplacedBy(newId), now).value.0;
      var w := m.(relations := m.relations + {Relation(FactKey(actor.org, newId), f, rid)});
      SupersedeOneKeepsCore(t, m, actor, newId, rid, targets, locked, now);
      InvalidateLockedEffect(t, actor, f, locked[targets[0]], ReplacedBy(newId), now);
      SupersedeAllNeedsDistinct(w, actor, newId, rid, targets[1..], locked, now);
      assert forall id <- targets[1..] :: id != targets[0];
      assert forall id :: id in targets <==> id == targets[0] || id in targets[1..];
    }
  }

  /** Every condition a create needs once it is admitted under a new key. */
  ghost predicate Creatable(t: Tables, actor: Actor, command: CreateFact, expected: map<string, int>) {
    && FactKey(actor.org, command.factId) !in t.heads
    && (set id <- command.supersedes) == expected.Keys
    && Distinct(command.supersedes)
    && (forall id <- command.supersedes ::
          && FactKey(actor.org, id) in t.heads
          && t.heads[FactKey(actor.org, id)].status == Active
          && t.heads[FactKey(actor.org, id)].currentVersion == expected[id])
  }

  /** u is t with one new active fact and every superseded one invalidated in its favour. */
  ghost predicate CreatedFact(t: Tables, u: Tables, actor: Actor, command: CreateFact, now: Time) {
    && CreatedRows(t, u, actor, command, now)
    && (forall id <- command.supersedes :: InvalidatedOnce(t, u, actor, FactKey(actor.org, id), ReplacedBy(command.factId), now))
  }

  ghost predicate CreatedRows(t: Tables, u: Tables, actor: Actor, command: CreateFact, now: Time) {
    var f := FactKey(actor.org, command.factId);
    && u.heads.Keys == t.heads.Keys + {f}
    && u.heads[f] == Head(command.payload.kind, command.payload.namespace, Active, 1, t.uuids, actor.id, now, actor.id, now)
    && t.uuids in u.revisions
    && u.revisions[t.uuids] == Revision(f, 1, command.payload, Active, None, command.changeReason, actor.id, now)
    && u.relations == t.relations + (set id <- command.supersedes :: Relation(f, FactKey(actor.org, id), t.uuids))
    && (forall r <- t.revisions :: r in u.revisions && u.revisions[r] == t.revisions[r])
    && (forall g <- t.heads :: !(g.org == actor.org && g.id in command.supersedes) ==> u.heads[g] == t.heads[g])
    && u.promotions == t.promotions && u.idempotency == t.idempotency
  }

  /** The current revision of the fact gives this as the reason of its invalidation. */
  ghost predicate GivesAsReason(t: Tables, f: FactKey, reason: string) {
    f in t.heads && t.heads[f].currentRevision in t.revisions && t.revisions[t.heads[f].currentRevision].invalidationReason == Some(reason)
  }

  lemma SupersededGiveReason(t: Tables, u: Tables, actor: Actor, command: CreateFact, now: Time)
    requires CreatedFact(t, u, actor, command, now)
    ensures forall id <- command.supersedes :: GivesAsReason(u, FactKey(actor.org, id), "後継ファクト " + command.factId + " により置換")
  {
    hide CreatedRows;
    forall id <- command.supersedes ensures GivesAsReason(u, FactKey(actor.org, id), "後継ファクト " + command.factId + " により置換") {
      assert InvalidatedOnce(t, u, actor, FactKey(actor.org, id), ReplacedBy(command.factId), now);
    }
  }

  lemma SupersedeErrorExact(t: Tables, org: OrgId, targets: seq<string>, expected: map<string, int>)
    requires forall id <- targets :: id in expected
    requires forall id <- targets :: FactKey(org, id) in t.heads && t.heads[FactKey(org, id)].status == Active
                                     && t.heads[FactKey(org, id)].currentVersion == expected[id]
    ensures SupersedeError(t, org, targets, expected).None?
  {
  }

  lemma SupersedeSucceedsExactly(t: Tables, actor: Actor, command: CreateFact, now: Time)
    requires Core(t) && HeadsHaveRevisions(t) && FactKey(actor.org, command.factId) !in t.heads
    requires forall id <- command.supersedes ::
               FactKey(actor.org, id) in t.heads && t.heads[FactKey(actor.org, id)].status == Active
    ensures var r := SupersedeAll(InsertFact(t, actor, command, now), actor, command.factId, t.uuids, command.supersedes,
                                  LockedHeads(t, actor.org, command.supersedes), now);
            && (r.Ok? <==> Distinct(command.supersedes))
            && (r.Ok? ==> CreatedFact(t, r.value, actor, command, now))
  {
    hide InRange, OneRevision, NoGaps, Paired, HeadsAgree, CreatorsAgree, LastInvalidated;
    hide Relations, PromotionRows, PromotionSources, OnePending, ApprovalsTaken, PromotedApproved, ContentPinned;
    hide CreatedFact, SupersededAll, Superseding;
    var ids := command.supersedes;
    var m, locked := InsertFact(t, actor, command, now), LockedHeads(t, actor.org, ids);
    InsertFactKeepsCore(t, actor, command, now);
    SupersedingStarts(t, actor, command, now);
    if Distinct(ids) {
      SupersedeAllEffect(m, actor, command.factId, t.uuids, ids, locked, now);
      CreatedBySuperseding(t, SupersedeAll(m, actor, command.factId, t.uuids, ids, locked, now).value, actor, command, now);
    } else if SupersedeAll(m, actor, command.factId, t.uuids, ids, locked, now).Ok? {
      SupersedeAllNeedsDistinct(m, actor, command.factId, t.uuids, ids, locked, now);
    }
  }

  /** A create succeeds exactly when its targets are distinct, active and at the revisions the caller saw, and
      its own id is free; naming one target twice is refused. */
  lemma CreateSucceedsExactly(t: Tables, actor: Actor, command: CreateFact, expected: map<string, int>, now: Time)
    requires Core(t) && HeadsHaveRevisions(t)
    ensures CreateBody(t, actor, command, expected, now).Ok? <==> Creatable(t, actor, command, expected)
    ensures CreateBody(t, actor, command, expected, now).Ok? ==>
              && CreatedFact(t, CreateBody(t, actor, command, expected, now).value.0, actor, command, now)
              && CreateBody(t, actor, command, expected, now).value.1 == WriteResult(command.factId, 1, false, t.uuids)
              && (forall id <- command.supersedes ::
                    GivesAsReason(CreateBody(t, actor, command, expected, now).value.0, FactKey(actor.org, id),
                                  "後継ファクト " + command.factId + " により置換"))
  {
    hide InRange, OneRevision, NoGaps, Paired, HeadsAgree, CreatorsAgree, LastInvalidated;
    hide Relations, PromotionRows, PromotionSources, OnePending, ApprovalsTaken, PromotedApproved, ContentPinned;
    hide CreatedFact, SupersededAll, Superseding;
    var ids := command.supersedes;
    if FactKey(actor.org, command.factId) !in t.heads && (set id <- ids) == expected.Keys {
      assert forall id <- ids :: id in expected.Keys;
      if forall id <- ids :: FactKey(actor.org, id) in t.heads && t.heads[FactKey(actor.org, id)].status == Active
                             && t.heads[FactKey(actor.org, id)].currentVersion == expected[id] {
        SupersedeErrorExact(t, actor.org, ids, expected);
        hide Distinct, GivesAsReason;
        SupersedeSucceedsExactly(t, actor, command, now);
        if CreateBody(t, actor, command, expected, now).Ok? {
          SupersededGiveReason(t, CreateBody(t, actor, command, expected, now).value.0, actor, command, now);
        }
      } else if SupersedeError(t, actor.org, ids, expected).None? {
        SupersedeErrorNone(t, actor.org, ids, expected);
      }
    }
  }

  lemma InvalidatedSinceInsert(t: Tables, u: Tables, actor: Actor, command: CreateFact, g: FactKey, reason: string, now: Time)
    requires InRange(t) && HeadsHaveRevisions(t) && g in t.heads && FactKey(actor.org, command.factId) !in t.heads
    requires InvalidatedOnce(InsertFact(t, actor, command, now), u, actor, g, reason, now)
    ensures InvalidatedOnce(t, u, actor, g, reason, now)
  {
    hide InvalidatedOnce;
    InvalidatedFrom(t, InsertFact(t, actor, command, now), u, actor, g, reason, now);
  }

  lemma InvalidatedFrom(t: Tables, m: Tables, u: Tables, actor: Actor, g: FactKey, reason: string, now: Time)
    requires InvalidatedOnce(m, u, actor, g, reason, now) && g in t.heads && m.heads[g] == t.heads[g]
    requires t.heads[g].currentRevision in t.revisions
    requires m.revisions[t.heads[g].currentRevision] == t.revisions[t.heads[g].currentRevision]
    ensures InvalidatedOnce(t, u, actor, g, reason, now)
  {
  }

  lemma CreatedBySuperseding(t: Tables, u: Tables, actor: Actor, command: CreateFact, now: Time)
    requires InRange(t) && HeadsHaveRevisions(t) && FactKey(actor.org, command.factId) !in t.heads
    requires forall id <- command.supersedes :: FactKey(actor.org, id) in t.heads
    requires SupersededAll(InsertFact(t, actor, command, now), u, actor, command.factId, t.uuids, command.supersedes, now)
    ensures CreatedFact(t, u, actor, command, now)
  {
    forall id <- command.supersedes
      ensures InvalidatedOnce(t, u, actor, FactKey(actor.org, id), ReplacedBy(command.factId), now)
    {
      InvalidatedSinceInsert(t, u, actor, command, FactKey(actor.org, id), ReplacedBy(command.factId), now);
    }
    hide InvalidatedOnce;
    CreatedRowsBySuperseding(t, InsertFact(t, actor, command, now), u, actor, command, now);
  }

  lemma CreatedRowsBySuperseding(t: Tables, m: Tables, u: Tables, actor: Actor, command: CreateFact, now: Time)
    requires InRange(t) && FactKey(actor.org, command.factId) !in t.heads
    requires forall id <- command.supersedes :: FactKey(actor.org, id) in t.heads
    requires m == InsertFact(t, actor, command, now)
    requires SupersededAll(m, u, actor, command.factId, t.uuids, command.supersedes, now)
    ensures CreatedRows(t, u, actor, command, now)
  {
    hide InvalidatedOnce;
    assert forall r <- t.revisions :: r in m.revisions && m.revisions[r] == t.revisions[r];
    hide InRange;
    var f := FactKey(actor.org, command.factId);
    assert u.heads[f] == m.heads[f];
    assert m.heads.Keys == t.heads.Keys + {f};
  }

  lemma InvalidateSucceedsExactly(t: Tables, actor: Actor, command: InvalidateFact, expected: int, now: Time)
    requires Core(t) && HeadsHaveRevisions(t)
    ensures var f := FactKey(actor.org, command.factId);
            InvalidateBody(t, actor, command, expected, now).Ok? <==>
              f in t.heads && t.heads[f].status == Active && t.heads[f].currentVersion == expected
    ensures InvalidateBody(t, actor, command, expected, now).Ok? ==>
              var f, u := FactKey(actor.org, command.factId), InvalidateBody(t, actor, command, expected, now).value.0;
              && InvalidatedOnce(t, u, actor, f, command.reason, now)
              && u.heads == t.heads[f := u.heads[f]]
              && (forall r <- t.revisions :: r in u.revisions && u.revisions[r] == t.revisions[r])
              && u.relations == t.relations && u.promotions == t.promotions && u.idempotency == t.idempotency
              && InvalidateBody(t, actor, command, expected, now).value.1 ==
                 WriteResult(command.factId, t.heads[f].currentVersion + 1, false, u.heads[f].currentRevision)
  {
    hide NoGaps, Paired, CreatorsAgree, LastInvalidated;
    hide Relations, PromotionRows, PromotionSources, OnePending, ApprovalsTaken, PromotedApproved, ContentPinned;
    var f := FactKey(actor.org, command.factId);
    if f in t.heads && t.heads[f].status == Active && t.heads[f].currentVersion == expected {
      var l := LockHead(t, f).value;
      InvalidateLockedAdvances(t, actor, f, l, command.reason, now);
      InvalidateLockedEffect(t, actor, f, l, command.reason, now);
    }
  }

  /** A promotion can be asked for exactly when the fact is active, in a domain namespace and without a pending
      request; the request is pinned to the current version, and nothing else changes. */
  lemma ProposeSucceedsExactly(t: Tables, actor: Actor, factId: string, reason: string, now: Time)
    ensures var f := FactKey(actor.org, factId);
            ProposeBody(t, actor, factId, reason, now).Ok? <==>
              && f in t.heads && t.heads[f].status == Active && "plk.domain." <= t.heads[f].namespace
              && forall q <- t.promotions :: t.promotions[q].fact == f ==> t.promotions[q].status != Pending
    ensures ProposeBody(t, actor, factId, reason, now).Ok? ==>
              var (u, p) := ProposeBody(t, actor, factId, reason, now).value;
              && p == Promotion(t.uuids, FactKey(actor.org, factId), t.heads[FactKey(actor.org, factId)].currentVersion,
                                Pending, actor.id, reason, now, now)
              && u == t.(promotions := t.promotions[p.id := p], uuids := t.uuids + 1)
  {
    assert HasPending(t, FactKey(actor.org, factId)) <==>
           exists q <- t.promotions :: t.promotions[q].fact == FactKey(actor.org, factId) && t.promotions[q].status == Pending;
  }

  /** u approves q of t: one more version, the same content made shared, and the request settled by its decision. */
  ghost predicate ApprovedBy(t: Tables, u: Tables, q: Uuid, actor: Actor, rationale: string, now: Time)
    requires q in t.promotions && t.promotions[q].fact in t.heads
  {
    var f := t.promotions[q].fact;
    var head := t.heads[f];
    && u.promotions == t.promotions[q := t.promotions[q].(status := Approved, updatedAt := now)]
    && u.decisions == t.decisions[q := Decision(Approve, rationale, actor.id)]
    && f in u.heads && u.heads == t.heads[f := u.heads[f]] && u.relations == t.relations
    && u.heads[f].status == Active && u.heads[f].namespace == SHARED && u.heads[f].kind == head.kind
    && u.heads[f].currentVersion == head.currentVersion + 1
    && head.currentRevision in t.revisions && u.heads[f].currentRevision !in t.revisions
    && u.revisions == t.revisions[u.heads[f].currentRevision := Revision(
      f, head.currentVersion + 1, t.revisions[head.currentRevision].payload.(namespace := SHARED), Active, None,
      "promotion approved: " + rationale, actor.id, now)]
  }

  /** What a decision changes: a request whose fact has moved on only goes stale, a rejection only settles it, an
      approval adds the shared version. */
  ghost predicate DecidedBy(t: Tables, u: Tables, d: DecisionResult, q: Uuid, actor: Actor, verdict: Verdict, rationale: string, now: Time)
    requires q in t.promotions && t.promotions[q].fact in t.heads
  {
    var p := t.promotions[q];
    && q in u.promotions && d.request == u.promotions[q] && !d.replayed && (d.factRevision.Some? <==> d.eventId.Some?)
    && if t.heads[p.fact].currentVersion != p.sourceVersion then
         d.factRevision == None && u == t.(promotions := t.promotions[q := p.(status := Stale, updatedAt := now)])
       else if verdict == Reject then
         && d.factRevision == None
         && u == t.(promotions := t.promotions[q := p.(status := Rejected, updatedAt := now)],
                    decisions := t.decisions[q := Decision(Reject, rationale, actor.id)])
       else d.factRevision == Some(p.sourceVersion + 1) && ApprovedBy(t, u, q, actor, rationale, now)
  }

  lemma PendingIsUndecided(t: Tables, q: Uuid)
    requires Core(t) && Open(t) && q in t.promotions && t.promotions[q].status == Pending
    ensures q !in t.decisions && t.promotions[q].fact in t.heads && t.uuids !in t.revisions
    ensures var f := t.promotions[q].fact;
            t.heads[f].currentVersion == t.promotions[q].sourceVersion ==> t.heads[f].status == Active
  {
    if t.heads[t.promotions[q].fact].currentVersion == t.promotions[q].sourceVersion {
      PendingHeadIsActive(t, q);
    }
  }

  lemma ApproveExactly(t: Tables, actor: Actor, q: Uuid, rationale: string, now: Time)
    requires HeadsHaveRevisions(t) && t.uuids !in t.revisions && q in t.promotions && t.promotions[q].fact in t.heads
    requires t.heads[t.promotions[q].fact].status == Active
    ensures var decided := t.(decisions := t.decisions[q := Decision(Approve, rationale, actor.id)]);
            ApprovedBy(t, Settle(Promote(decided, actor, t.promotions[q].fact, rationale, now), q, Approved, now), q, actor, rationale, now)
  {
  }

  lemma DecideChanges(t: Tables, actor: Actor, q: Uuid, verdict: Verdict, rationale: string, expected: int, now: Time)
    requires HeadsHaveRevisions(t) && (forall q <- t.promotions :: t.promotions[q].fact in t.heads)
    requires t.uuids !in t.revisions && q in t.promotions && q !in t.decisions
    requires t.promotions[q].status == Pending && t.promotions[q].fact.org == actor.org && t.promotions[q].sourceVersion == expected
    requires t.heads[t.promotions[q].fact].currentVersion == expected ==> t.heads[t.promotions[q].fact].status == Active
    ensures DecideBody(t, actor, q, verdict, rationale, expected, now).Ok?
    ensures var (u, d) := DecideBody(t, actor, q, verdict, rationale, expected, now).value;
            DecidedBy(t, u, d, q, actor, verdict, rationale, now)
  {
    if t.heads[t.promotions[q].fact].currentVersion == expected && verdict == Approve {
      ApproveExactly(t, actor, q, rationale, now);
    }
    hide ApprovedBy, Promote, HeadsHaveRevisions;
  }

  /** A decision is taken exactly on a pending request of the organization at the version the decider saw. */
  lemma DecideSucceedsExactly(t: Tables, actor: Actor, q: Uuid, verdict: Verdict, rationale: string, expected: int, now: Time)
    requires Core(t) && HeadsHaveRevisions(t) && Open(t)
    ensures DecideBody(t, actor, q, verdict, rationale, expected, now).Ok? <==>
              && q in t.promotions && t.promotions[q].fact.org == actor.org
              && t.promotions[q].status == Pending && t.promotions[q].sourceVersion == expected
    ensures DecideBody(t, actor, q, verdict, rationale, expected, now).Ok? ==>
              var (u, d) := DecideBody(t, actor, q, verdict, rationale, expected, now).value;
              DecidedBy(t, u, d, q, actor, verdict, rationale, now)
  {
    hide Core, HeadsHaveRevisions, DecidedBy, Promote, Settle;
    if q in t.promotions && t.promotions[q].fact.org == actor.org
       && t.promotions[q].status == Pending && t.promotions[q].sourceVersion == expected {
      PendingIsUndecided(t, q);
      DecideChanges(t, actor, q, verdict, rationale, expected, now);
    }
  }

  // ---- under a key never used before ------------------------------------------------------

  /** u is a state that lacks only the record of the call's key. */
  ghost predicate RecordedOver(t: Tables, u: Tables, a: Attempt, response: Response) {
    u.idempotency == t.idempotency[KeyOf(a) := IdempotencyRecord(RequestOf(a), Some(response))]
  }

  lemma FreshCreate(policy: ContentPolicy, t: Tables, a: Attempt)
    requires Inv(t) && Open(t) && a.Create? && Admitted(policy, a) && KeyOf(a) !in t.idempotency
    requires Creatable(t, a.actor, a.create, a.superseded)
    ensures var (u, r) := Attempted(policy, t, a);
            && r.Ok? && r.value.Written? && RecordedOver(t, u, a, r.value)
            && CreatedFact(t, u.(idempotency := t.idempotency), a.actor, a.create, a.now)
  {
    hide Core, Open, Recorded, Attempted, Admitted, RequestOf, CreateBody, CreatedFact;
    var t0 := Begun(t, a);
    AttemptCases(policy, t, a);
    CoreIgnoresIdempotency(t, t0);
    CoreIsOpen(t0);
    OpenHasRevisions(t0);
    CreateSucceedsExactly(t0, a.actor, a.create, a.superseded, a.now);
    BodyAnswers(t0, a);
    var u := Attempted(policy, t, a).0;
    CreatedIgnoresIdempotency(t0, CreateBody(t0, a.actor, a.create, a.superseded, a.now).value.0, t, u.(idempotency := t.idempotency),
                              a.actor, a.create, a.now);
  }

  lemma CreatedIgnoresIdempotency(t0: Tables, b: Tables, t: Tables, u: Tables, actor: Actor, command: CreateFact, now: Time)
    requires CreatedFact(t0, b, actor, command, now)
    requires t0 == t.(idempotency := t0.idempotency) && b == u.(idempotency := b.idempotency) && u.idempotency == t.idempotency
    ensures CreatedFact(t, u, actor, command, now)
  {
    forall id <- command.supersedes ensures InvalidatedOnce(t, u, actor, FactKey(actor.org, id), ReplacedBy(command.factId), now) {
      assert InvalidatedOnce(t0, b, actor, FactKey(actor.org, id), ReplacedBy(command.factId), now);
    }
  }

  lemma FreshInvalidate(policy: ContentPolicy, t: Tables, a: Attempt)
    requires Inv(t) && Open(t) && a.Invalidate? && Admitted(policy, a) && KeyOf(a) !in t.idempotency
    requires var f := FactKey(a.actor.org, a.invalidate.factId);
             f in t.heads && t.heads[f].status == Active && t.heads[f].currentVersion == a.expected
    ensures var (u, r) := Attempted(policy, t, a);
            var f := FactKey(a.actor.org, a.invalidate.factId);
            && r.Ok? && r.value.Written? && RecordedOver(t, u, a, r.value)
            && InvalidatedOnce(t, u, a.actor, f, a.invalidate.reason, a.now)
            && u.heads == t.heads[f := u.heads[f]]
            && (forall r <- t.revisions :: r in u.revisions && u.revisions[r] == t.revisions[r])
            && u.relations == t.relations
  {
    hide Core, Open, Recorded, Attempted, Admitted, RequestOf, InvalidateBody;
    var t0 := Begun(t, a);
    AttemptCases(policy, t, a);
    CoreIgnoresIdempotency(t, t0);
    CoreIsOpen(t0);
    OpenHasRevisions(t0);
    InvalidateSucceedsExactly(t0, a.actor, a.invalidate, a.expected, a.now);
    BodyAnswers(t0, a);
  }

  /** A call that is repeated changes nothing and is answered from the record. */
  lemma RepeatedCall(policy: ContentPolicy, t: Tables, a: Attempt)
    requires Inv(t) && Open(t) && Admitted(policy, a) && KeyOf(a) in t.idempotency && t.idempotency[KeyOf(a)].request == RequestOf(a)
    ensures Attempted(policy, t, a).0 == t && Attempted(policy, t, a).1.Ok?
  {
    hide Core, Open, Recorded, Attempted, Admitted, RequestOf;
    AttemptCases(policy, t, a);
  }
}
