/** What every committed transaction of the fact store keeps. */
module StoreInvariant {
  import opened Domain
  import opened Tables

  ghost function Version(t: Tables, f: FactKey): nat {
    if f in t.heads then t.heads[f].currentVersion else 0
  }

  ghost predicate RevisionAt(t: Tables, f: FactKey, v: int, r: int) {
    r in t.revisions && t.revisions[r].fact == f && t.revisions[r].version == v
  }

  ghost predicate EventAt(t: Tables, f: FactKey, v: int, e: int) {
    e in t.events && t.events[e].fact == f && t.events[e].version == v
  }

  ghost predicate HasRevision(t: Tables, f: FactKey, v: int) {
    exists r :: RevisionAt(t, f, v, r)
  }

  ghost predicate InRange(t: Tables) {
    forall r <- t.revisions :: r < t.uuids && 1 <= t.revisions[r].version <= Version(t, t.revisions[r].fact)
  }

  ghost predicate OneRevision(t: Tables) {
    forall r <- t.revisions, s <- t.revisions ::
      t.revisions[r].fact == t.revisions[s].fact && t.revisions[r].version == t.revisions[s].version ==> r == s
  }

  ghost predicate NoGaps(t: Tables) {
    forall f, v :: 1 <= v <= Version(t, f) ==> HasRevision(t, f, v)
  }

  /** A transaction draws one identity for a revision and its event, each fresh in its own table. */
  ghost predicate Paired(t: Tables) {
    && t.events.Keys == t.revisions.Keys
    && (forall r <- t.revisions ::
          && t.events[r].fact == t.revisions[r].fact && t.events[r].version == t.revisions[r].version
          && (t.events[r].op == Created <==> t.revisions[r].version == 1)
          && (t.events[r].op == WasInvalidated <==> t.revisions[r].status == Invalidated))
  }

  ghost predicate Agrees(head: Head, r: Revision) {
    && head.kind == r.payload.kind
    && head.namespace == r.payload.namespace
    && head.status == r.status
    && head.currentVersion == r.version
    && head.updatedBy == r.actorId && head.updatedAt == r.createdAt
  }

  /** Every head points at the revision of its own current version and repeats its columns. */
  ghost predicate HeadsAgree(t: Tables) {
    forall f <- t.heads ::
      && t.heads[f].currentRevision in t.revisions
      && t.revisions[t.heads[f].currentRevision].fact == f
      && Agrees(t.heads[f], t.revisions[t.heads[f].currentRevision])
      && t.heads[f].currentVersion >= 1
  }

  /** A head remembers who made its first revision. */
  ghost predicate CreatorsAgree(t: Tables) {
    forall r <- t.revisions :: t.revisions[r].version == 1 && t.revisions[r].fact in t.heads ==>
                                 && t.heads[t.revisions[r].fact].createdBy == t.revisions[r].actorId
                                 && t.heads[t.revisions[r].fact].createdAt == t.revisions[r].createdAt
  }

  /** Only the last revision of a fact can be an invalidated one. */
  ghost predicate LastInvalidated(t: Tables) {
    forall r <- t.revisions :: t.revisions[r].status == Invalidated ==>
                                 t.revisions[r].version == Version(t, t.revisions[r].fact)
  }

  ghost predicate Relations(t: Tables) {
    && (forall x <- t.relations ::
          && x.from in t.heads && x.to in t.heads
          && t.heads[x.to].status == Invalidated
          && RevisionAt(t, x.from, 1, x.createdRevision))
    && (forall x <- t.relations, r :: RevisionAt(t, x.to, 1, r) ==> r < x.createdRevision)
    && (forall x <- t.relations, y <- t.relations :: x.to == y.to ==> x == y)
  }

  ghost predicate Settled(t: Tables, q: Uuid)
    requires q in t.promotions
  {
    match t.promotions[q].status
    case Approved => q in t.decisions && t.decisions[q].verdict == Approve
    case Rejected => q in t.decisions && t.decisions[q].verdict == Reject
    case _ => q !in t.decisions
  }

  predicate Promotable(r: Revision) {
    r.status == Active && IsDomainNamespace(r.payload.namespace)
  }

  ghost predicate PromotionRows(t: Tables) {
    && (forall q <- t.promotions ::
          && q < t.uuids && t.promotions[q].id == q
          && 1 <= t.promotions[q].sourceVersion <= Version(t, t.promotions[q].fact)
          && Settled(t, q))
    && (forall q <- t.decisions :: q in t.promotions)
  }

  ghost predicate PromotionSources(t: Tables) {
    forall q <- t.promotions, r :: RevisionAt(t, t.promotions[q].fact, t.promotions[q].sourceVersion, r) ==>
                                     Promotable(t.revisions[r])
  }

  ghost predicate OnePending(t: Tables) {
    forall p <- t.promotions, q <- t.promotions ::
      t.promotions[p].status == t.promotions[q].status == Pending && t.promotions[p].fact == t.promotions[q].fact
      ==> p == q
  }

  ghost predicate Promotions(t: Tables) {
    PromotionRows(t) && PromotionSources(t) && OnePending(t)
  }

  /** q is the approval that made version v of f. */
  ghost predicate ApprovedAt(t: Tables, f: FactKey, v: int, q: int) {
    && q in t.promotions && t.promotions[q].fact == f && t.promotions[q].sourceVersion + 1 == v
    && t.promotions[q].status == Approved
  }

  ghost predicate HasApproval(t: Tables, f: FactKey, v: int) {
    exists q :: ApprovedAt(t, f, v, q)
  }

  ghost predicate ApprovedBelow(t: Tables) {
    forall q <- t.promotions :: t.promotions[q].status == Approved ==>
                                  t.promotions[q].sourceVersion < Version(t, t.promotions[q].fact)
  }

  ghost predicate ApprovedPromoted(t: Tables) {
    forall q <- t.promotions, r <- t.revisions ::
      && t.promotions[q].status == Approved && r in t.events
      && t.revisions[r].fact == t.promotions[q].fact && t.revisions[r].version == t.promotions[q].sourceVersion + 1
      ==> t.events[r].op == Promoted
  }

  ghost predicate ApprovedOnce(t: Tables) {
    forall p <- t.promotions, q <- t.promotions ::
      && t.promotions[p].status == t.promotions[q].status == Approved
      && t.promotions[p].fact == t.promotions[q].fact
      && t.promotions[p].sourceVersion == t.promotions[q].sourceVersion
      ==> p == q
  }

  /** The version after an approved source exists, is a promotion, and was approved once. */
  ghost predicate ApprovalsTaken(t: Tables) {
    ApprovedBelow(t) && ApprovedPromoted(t) && ApprovedOnce(t)
  }

  ghost predicate PromotedApproved(t: Tables) {
    forall r <- t.revisions | r in t.events && t.events[r].op == Promoted ::
      HasApproval(t, t.revisions[r].fact, t.revisions[r].version)
  }

  /** What a version of the content becomes under an operation on it. */
  function CarriedOver(op: ChangeOperation, payload: Payload): Payload {
    if op == Promoted then payload.(namespace := SHARED) else payload
  }

  /** r may follow s: the content is carried over, and only an active version of a domain fact is promoted. */
  ghost predicate Succeeds(op: ChangeOperation, r: Revision, s: Revision) {
    && r.payload == CarriedOver(op, s.payload) && s.status == Active
    && (op == Promoted ==> r.status == Active && Promotable(s))
  }

  ghost predicate ContentPinned(t: Tables) {
    forall r <- t.revisions, s <- t.revisions ::
      r in t.events && t.revisions[s].fact == t.revisions[r].fact && t.revisions[s].version + 1 == t.revisions[r].version
      ==> Succeeds(t.events[r].op, t.revisions[r], t.revisions[s])
  }

  /** Everything but the idempotency records. */
  ghost predicate Core(t: Tables) {
    && InRange(t) && OneRevision(t) && NoGaps(t) && Paired(t) && HeadsAgree(t) && CreatorsAgree(t) && LastInvalidated(t)
    && Relations(t) && Promotions(t) && ApprovalsTaken(t) && PromotedApproved(t) && ContentPinned(t)
  }

  ghost predicate Answers(request: Request, response: Response) {
    match request
    case CreateRequest(_, c) => response.Written? && response.write.factId == c.factId
    case InvalidateRequest(_, c) => response.Written? && response.write.factId == c.factId
    case ProposeRequest(_, f, _) => response.Proposed? && response.promotion.fact.id == f
    case DecideRequest(_, id, _, _, _) => response.Decided? && id.uuid == Some(response.decision.request.id)
  }

  ghost predicate Recorded(t: Tables) {
    forall k <- t.idempotency ::
      && t.idempotency[k].response.Some?
      && Answers(t.idempotency[k].request, t.idempotency[k].response.value)
  }

  ghost predicate Inv(t: Tables) {
    Core(t) && Recorded(t)
  }

  // ---- one new version --------------------------------------------------------------------

  /** u is t with one more revision of f, its event, and the head moved to it. */
  ghost predicate Advances(t: Tables, u: Tables, f: FactKey, r: Revision, op: ChangeOperation, now: Time) {
    && r.fact == f && r.version == Version(t, f) + 1 && r.createdAt == now
    && u.revisions == t.revisions[t.uuids := r]
    && u.events == t.events[t.uuids := NewEvent(f, r.version, op, now)]
    && f in u.heads && u.heads == t.heads[f := u.heads[f]]
    && u.heads[f].currentRevision == t.uuids && Agrees(u.heads[f], r)
    && u.heads[f].createdBy == (if f in t.heads then t.heads[f].createdBy else r.actorId)
    && u.heads[f].createdAt == (if f in t.heads then t.heads[f].createdAt else r.createdAt)
    && u.uuids == t.uuids + 1
    && u.relations == t.relations && u.promotions == t.promotions && u.decisions == t.decisions
  }

  lemma AdvanceKeepsRevisions(t: Tables, u: Tables, f: FactKey, r: Revision, op: ChangeOperation, now: Time)
    requires InRange(t) && OneRevision(t) && NoGaps(t) && Advances(t, u, f, r, op, now)
    ensures InRange(u) && OneRevision(u) && NoGaps(u)
  {
    assert RevisionAt(u, f, r.version, t.uuids);
    forall g, v | 1 <= v <= Version(u, g)
      ensures HasRevision(u, g, v)
    {
      if !(g == f && v == r.version) {
        assert HasRevision(t, g, v);
        var i :| RevisionAt(t, g, v, i);
        assert RevisionAt(u, g, v, i);
      }
    }
  }

  lemma AdvanceKeepsPairs(t: Tables, u: Tables, f: FactKey, r: Revision, op: ChangeOperation, now: Time)
    requires InRange(t) && Paired(t) && HeadsAgree(t) && LastInvalidated(t) && Advances(t, u, f, r, op, now)
    requires f in t.heads ==> t.heads[f].status == Active
    requires (op == Created <==> f !in t.heads) && (op == WasInvalidated <==> r.status == Invalidated)
    ensures Paired(u) && HeadsAgree(u)
  {
    AdvanceKeepsHeads(t, u, f, r, op, now);
    assert t.uuids !in t.revisions;
    assert f in t.heads <==> r.version != 1;
    hide HeadsAgree, Agrees, LastInvalidated, InRange, Version, Paired;
    OnePairMore(t, u, t.uuids, r, NewEvent(f, r.version, op, now));
  }

  lemma OnePairMore(t: Tables, u: Tables, i: Uuid, r: Revision, e: Event)
    requires Paired(t) && u.revisions == t.revisions[i := r] && u.events == t.events[i := e]
    requires e.fact == r.fact && e.version == r.version
    requires (e.op == Created <==> r.version == 1) && (e.op == WasInvalidated <==> r.status == Invalidated)
    ensures Paired(u)
  {
  }

  lemma AdvanceKeepsHeads(t: Tables, u: Tables, f: FactKey, r: Revision, op: ChangeOperation, now: Time)
    requires InRange(t) && HeadsAgree(t) && Advances(t, u, f, r, op, now)
    ensures HeadsAgree(u)
  {
    assert t.uuids !in t.revisions;
    hide InRange, Agrees;
  }

  lemma AdvanceKeepsLastInvalidated(t: Tables, u: Tables, f: FactKey, r: Revision, op: ChangeOperation, now: Time)
    requires InRange(t) && OneRevision(t) && HeadsAgree(t) && LastInvalidated(t) && Advances(t, u, f, r, op, now)
    requires f in t.heads ==> t.heads[f].status == Active
    ensures LastInvalidated(u)
  {
    if f in t.heads {
      var current := t.heads[f].currentRevision;
      assert forall i <- t.revisions :: t.revisions[i].fact == f && t.revisions[i].version == Version(t, f) ==> i == current;
    }
  }

  lemma AdvanceKeepsRelations(t: Tables, u: Tables, f: FactKey, r: Revision, op: ChangeOperation, now: Time)
    requires InRange(t) && HeadsAgree(t) && Relations(t) && Advances(t, u, f, r, op, now)
    requires f in t.heads ==> t.heads[f].status == Active
    ensures Relations(u)
  {
    assert f in t.heads ==> r.version > 1;
    forall x <- u.relations, i | RevisionAt(u, x.to, 1, i)
      ensures i < x.createdRevision
    {
      assert RevisionAt(t, x.to, 1, i);
    }
  }

  lemma AdvanceKeepsPromotions(t: Tables, u: Tables, f: FactKey, r: Revision, op: ChangeOperation, now: Time)
    requires InRange(t) && Promotions(t) && Advances(t, u, f, r, op, now)
    ensures Promotions(u)
  {
  }

  lemma AdvanceKeepsApprovals(t: Tables, u: Tables, f: FactKey, r: Revision, op: ChangeOperation, now: Time)
    requires InRange(t) && Paired(t) && ApprovalsTaken(t) && PromotedApproved(t)
    requires Advances(t, u, f, r, op, now) && op != Promoted
    ensures ApprovalsTaken(u) && PromotedApproved(u)
  {
    forall i <- u.revisions | i in u.events && u.events[i].op == Promoted
      ensures HasApproval(u, u.revisions[i].fact, u.revisions[i].version)
    {
      assert HasApproval(t, t.revisions[i].fact, t.revisions[i].version);
      var q :| ApprovedAt(t, t.revisions[i].fact, t.revisions[i].version, q);
      assert ApprovedAt(u, u.revisions[i].fact, u.revisions[i].version, q);
    }
  }

  lemma AdvanceKeepsCreators(t: Tables, u: Tables, f: FactKey, r: Revision, op: ChangeOperation, now: Time)
    requires InRange(t) && HeadsAgree(t) && CreatorsAgree(t) && Advances(t, u, f, r, op, now)
    ensures CreatorsAgree(u)
  {
    assert f in t.heads ==> r.version > 1;
  }

  lemma AdvanceKeepsPinned(t: Tables, u: Tables, f: FactKey, r: Revision, op: ChangeOperation, now: Time)
    requires InRange(t) && OneRevision(t) && Paired(t) && HeadsAgree(t) && ContentPinned(t)
    requires Advances(t, u, f, r, op, now)
    requires f in t.heads ==> Succeeds(op, r, t.revisions[t.heads[f].currentRevision])
    ensures ContentPinned(u)
  {
    if f in t.heads {
      var source := t.heads[f].currentRevision;
      assert forall s <- t.revisions :: t.revisions[s].fact == f && t.revisions[s].version == Version(t, f) ==> s == source;
    }
  }
}
