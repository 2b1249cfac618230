/** Whole runs of the fact store: any interleaving of committed, refused and retried writes. */
module StoreRuns {
  import opened Domain
  import opened Tables
  import opened StoreInvariant
  import opened StoreTransactions

  /** One call of a repository, retried or not. */
  datatype Attempt =
    | Create(actor: Actor, create: CreateFact, superseded: map<string, int>, key: string, now: Time)
    | Invalidate(actor: Actor, invalidate: InvalidateFact, expected: int, key: string, now: Time)
    | Propose(actor: Actor, factId: string, reason: string, key: string, now: Time)
    | Decide(actor: Actor, promotion: RequestId, verdict: Verdict, rationale: string, expected: int, key: string, now: Time)

  function KeyOf(a: Attempt): IdempotencyKey {
    IdempotencyKey(a.actor.org, a.key)
  }

  function RequestOf(a: Attempt): Request {
    match a
    case Create(actor, c, _, _, _) => CreateRequest(actor.id, c)
    case Invalidate(actor, c, _, _, _) => InvalidateRequest(actor.id, c)
    case Propose(actor, f, reason, _, _) => ProposeRequest(actor.id, f, reason)
    case Decide(actor, id, verdict, rationale, expected, _, _) => DecideRequest(actor.id, id, verdict, rationale, expected)
  }

  /** The checks made before the transaction opens. */
  predicate Admitted(policy: ContentPolicy, a: Attempt) {
    match a
    case Create(actor, c, _, _, _) => CreateAllowed(policy, actor, c)
    case Invalidate(actor, _, _, _, _) => "writer" in actor.roles
    case Propose(_, _, reason, _, _) => |Strip(reason)| >= 5
    case Decide(actor, id, _, rationale, _, _, _) =>
      ("reviewer" in actor.roles || "admin" in actor.roles) && |Strip(rationale)| >= 5 && id.uuid.Some?
  }

  predicate Open(t: Tables) {
    && (forall f <- t.heads :: t.heads[f].currentRevision in t.revisions)
    && (forall q <- t.promotions :: t.promotions[q].fact in t.heads)
  }

  function AsResponse<T>(r: Result<T>, wrap: T -> Response): Result<Response> {
    match r
    case Ok(v) => Ok(wrap(v))
    case Err(e) => Err(e)
  }

  function Attempted(policy: ContentPolicy, t: Tables, a: Attempt): (Tables, Result<Response>)
    requires Open(t)
  {
    match a
    case Create(actor, c, superseded, key, now) =>
      var (u, r) := CreateTx(policy, t, actor, c, superseded, key, now); (u, AsResponse(r, w => Written(w)))
    case Invalidate(actor, c, expected, key, now) =>
      var (u, r) := InvalidateTx(t, actor, c, expected, key, now); (u, AsResponse(r, w => Written(w)))
    case Propose(actor, f, reason, key, now) =>
      var (u, r) := ProposeTx(t, actor, f, reason, key, now); (u, AsResponse(r, p => Proposed(p)))
    case Decide(actor, id, verdict, rationale, expected, key, now) =>
      var (u, r) := DecideTx(t, actor, id, verdict, rationale, expected, key, now); (u, AsResponse(r, d => Decided(d)))
  }

  /** What a repeated call is answered with: the stored response, marked as a replay where it has the mark. */
  function Replayed(response: Response): Response {
    match response
    case Written(w) => Written(w.(replayed := true))
    case Proposed(p) => response
    case Decided(d) => Decided(d.(replayed := true))
  }

  /** What the transaction does once its key is known to be new. */
  function Body(t: Tables, a: Attempt): Result<(Tables, Response)>
    requires Open(t)
  {
    match a
    case Create(actor, c, superseded, _, now) => BodyResponse(CreateBody(t, actor, c, superseded, now), w => Written(w))
    case Invalidate(actor, c, expected, _, now) => BodyResponse(InvalidateBody(t, actor, c, expected, now), w => Written(w))
    case Propose(actor, f, reason, _, now) => BodyResponse(ProposeBody(t, actor, f, reason, now), p => Proposed(p))
    case Decide(actor, id, verdict, rationale, expected, _, now) =>
      if id.uuid.None? then Err(ValueError)
      else BodyResponse(DecideBody(t, actor, id.uuid.value, verdict, rationale, expected, now), d => Decided(d))
  }

  function BodyResponse<T>(r: Result<(Tables, T)>, wrap: T -> Response): Result<(Tables, Response)> {
    match r
    case Ok((t, v)) => Ok((t, wrap(v)))
    case Err(e) => Err(e)
  }

  function Begun(t: Tables, a: Attempt): Tables {
    t.(idempotency := t.idempotency[KeyOf(a) := IdempotencyRecord(RequestOf(a), None)])
  }

  lemma CoreIsOpen(t: Tables)
    requires Core(t)
    ensures Open(t)
  {
    CoreHasRevisions(t);
  }

  // ---- one attempt ------------------------------------------------------------------------

  lemma BodyKeepsIdempotency(t: Tables, actor: Actor, newId: string, rid: Uuid, targets: seq<string>,
                             locked: map<string, Locked>, now: Time)
    requires forall id <- targets :: id in locked
    ensures SupersedeAll(t, actor, newId, rid, targets, locked, now).Ok? ==>
              SupersedeAll(t, actor, newId, rid, targets, locked, now).value.idempotency == t.idempotency
    decreases |targets|
  {
    if targets != [] {
      var r := InvalidateLocked(t, actor, FactKey(actor.org, targets[0]), locked[targets[0]], ReplacedBy(newId), now);
      if r.Ok? {
        var x := Relation(FactKey(actor.org, newId), FactKey(actor.org, targets[0]), rid);
        BodyKeepsIdempotency(r.value.0.(relations := r.value.0.relations + {x}), actor, newId, rid, targets[1..], locked, now);
      }
    }
  }

  lemma CreateBodyAnswers(t: Tables, actor: Actor, command: CreateFact, expected: map<string, int>, now: Time)
    requires HeadsHaveRevisions(t)
    ensures CreateBody(t, actor, command, expected, now).Ok? ==>
              var (u, w) := CreateBody(t, actor, command, expected, now).value;
              u.idempotency == t.idempotency && w.factId == command.factId && !w.replayed
  {
    if CreateBody(t, actor, command, expected, now).Ok? {
      SupersedeErrorNone(t, actor.org, command.supersedes, expected);
      BodyKeepsIdempotency(InsertFact(t, actor, command, now), actor, command.factId, t.uuids, command.supersedes,
                           LockedHeads(t, actor.org, command.supersedes), now);
    }
  }

  lemma InvalidateBodyAnswers(t: Tables, actor: Actor, command: InvalidateFact, expected: int, now: Time)
    requires HeadsHaveRevisions(t)
    ensures InvalidateBody(t, actor, command, expected, now).Ok? ==>
              var (u, w) := InvalidateBody(t, actor, command, expected, now).value;
              u.idempotency == t.idempotency && w.factId == command.factId && !w.replayed
  {
  }

  lemma ProposeBodyAnswers(t: Tables, actor: Actor, factId: string, reason: string, now: Time)
    ensures ProposeBody(t, actor, factId, reason, now).Ok? ==>
              var (u, p) := ProposeBody(t, actor, factId, reason, now).value;
              u.idempotency == t.idempotency && p.fact.id == factId
  {
  }

  lemma DecideBodyAnswers(t: Tables, actor: Actor, q: Uuid, verdict: Verdict, rationale: string, expected: int, now: Time)
    requires HeadsHaveRevisions(t) && PromotionRows(t)
    requires forall q <- t.promotions :: t.promotions[q].fact in t.heads
    ensures DecideBody(t, actor, q, verdict, rationale, expected, now).Ok? ==>
              var (u, d) := DecideBody(t, actor, q, verdict, rationale, expected, now).value;
              u.idempotency == t.idempotency && d.request.id == q && !d.replayed
  {
  }

  lemma BodyAnswers(t: Tables, a: Attempt)
    requires Core(t) && Open(t)
    ensures Body(t, a).Ok? ==>
              var (u, response) := Body(t, a).value;
              u.idempotency == t.idempotency && Answers(RequestOf(a), response)
  {
    hide InRange, OneRevision, NoGaps, Paired, HeadsAgree, CreatorsAgree, LastInvalidated;
    hide Relations, PromotionRows, PromotionSources, OnePending, ApprovalsTaken, PromotedApproved, ContentPinned;
    hide CreateBody, InvalidateBody, ProposeBody, DecideBody;
    match a
    case Create(actor, c, superseded, _, now) => CreateBodyAnswers(t, actor, c, superseded, now);
    case Invalidate(actor, c, expected, _, now) => InvalidateBodyAnswers(t, actor, c, expected, now);
    case Propose(actor, f, reason, _, now) => ProposeBodyAnswers(t, actor, f, reason, now);
    case Decide(actor, id, verdict, rationale, expected, _, now) =>
      if id.uuid.Some? {
        DecideBodyAnswers(t, actor, id.uuid.value, verdict, rationale, expected, now);
      }
  }

  lemma BodyKeepsCore(t: Tables, a: Attempt)
    requires Core(t) && Open(t)
    ensures Body(t, a).Ok? ==> Core(Body(t, a).value.0)
  {
    hide InRange, OneRevision, NoGaps, Paired, HeadsAgree, CreatorsAgree, LastInvalidated;
    hide Relations, PromotionRows, PromotionSources, OnePending, ApprovalsTaken, PromotedApproved, ContentPinned;
    hide CreateBody, InvalidateBody, ProposeBody, DecideBody;
    if Body(t, a).Ok? {
      match a
      case Create(actor, c, superseded, _, now) => CreateBodyKeepsCore(t, actor, c, superseded, now);
      case Invalidate(actor, c, expected, _, now) => InvalidateBodyKeepsCore(t, actor, c, expected, now);
      case Propose(actor, f, reason, _, now) => ProposeBodyKeepsCore(t, actor, f, reason, now);
      case Decide(actor, id, verdict, rationale, expected, _, now) =>
        DecideBodyKeepsCore(t, actor, id.uuid.value, verdict, rationale, expected, now);
    }
  }

  /** The ways an attempt can end: refused before or after it began, replayed, or run under a key never used before. */
  lemma OpenHasRevisions(t: Tables)
    requires Open(t)
    ensures HeadsHaveRevisions(t)
  {
  }

  lemma AttemptCases(policy: ContentPolicy, t: Tables, a: Attempt)
    requires Recorded(t) && Open(t)
    ensures var (u, r) := Attempted(policy, t, a);
            && (!Admitted(policy, a) ==> r.Err? && u == t)
            && (Admitted(policy, a) && KeyOf(a) in t.idempotency ==>
                  && u == t
                  && var record := t.idempotency[KeyOf(a)];
                  && (record.request == RequestOf(a) ==> r == Ok(Replayed(record.response.value)))
                  && (record.request != RequestOf(a) ==> r == Err(IdempotencyConflict(a.key))))
            && (Admitted(policy, a) && KeyOf(a) !in t.idempotency ==>
                  match Body(Begun(t, a), a)
                  case Err(e) => r == Err(e) && u == t
                  case Ok((b, response)) =>
                    && r == Ok(response)
                    && u == b.(idempotency := b.idempotency[KeyOf(a) := IdempotencyRecord(RequestOf(a), Some(response))]))
  {
    hide CreateBody, InvalidateBody, ProposeBody, DecideBody, CreateAllowed, Strip;
  }

  lemma AttemptKeepsInv(policy: ContentPolicy, t: Tables, a: Attempt)
    requires Inv(t) && Open(t)
    ensures Inv(Attempted(policy, t, a).0) && Open(Attempted(policy, t, a).0)
  {
    hide InRange, OneRevision, NoGaps, Paired, HeadsAgree, CreatorsAgree, LastInvalidated;
    hide Relations, PromotionRows, PromotionSources, OnePending, ApprovalsTaken, PromotedApproved, ContentPinned;
    hide Attempted, Body, Open, Admitted;
    var t0 := Begun(t, a);
    AttemptCases(policy, t, a);
    CoreIgnoresIdempotency(t, t0);
    CoreIsOpen(t0);
    BodyKeepsCore(t0, a);
    BodyAnswers(t0, a);
    var u := Attempted(policy, t, a).0;
    if u != t {
      CoreIgnoresIdempotency(Body(t0, a).value.0, u);
      CoreIsOpen(u);
    }
  }

  // ---- what no write ever undoes ----------------------------------------------------------

  /** An event no worker has claimed yet, due since it occurred. */
  predicate Untouched(e: Event) {
    e.attempts == 0 && e.lease.None? && e.processedAt.None? && e.deadLetteredAt.None? && e.availableAt == e.occurredAt
  }

  /** u keeps every row of t that is not allowed to change, and nothing outside org differs. */
  ghost predicate Grows(t: Tables, u: Tables, org: OrgId) {
    && (forall r <- t.revisions :: r in u.revisions && u.revisions[r] == t.revisions[r])
    && (forall e <- t.events :: e in u.events && u.events[e] == t.events[e])
    && (forall e <- u.events :: e in t.events || (Untouched(u.events[e]) && e in u.revisions && u.events[e].occurredAt == u.revisions[e].createdAt))
    && t.uuids <= u.uuids
    && (forall f <- t.heads ::
          && f in u.heads && t.heads[f].currentVersion <= u.heads[f].currentVersion
          && (t.heads[f].status == Invalidated || f.org != org ==> u.heads[f] == t.heads[f]))
    && (forall f <- u.heads :: f in t.heads || f.org == org)
    && t.relations <= u.relations
    && (forall x <- u.relations :: x in t.relations || x.from.org == x.to.org == org)
  }

  lemma GrowsTransitive(t: Tables, u: Tables, w: Tables, org: OrgId)
    requires Grows(t, u, org) && Grows(u, w, org)
    ensures Grows(t, w, org)
  {
  }

  /** A request stays as it was once it is settled, and keeps everything but its status until then. */
  ghost predicate PromotionsSettle(t: Tables, u: Tables) {
    && (forall q <- t.promotions ::
          && q in u.promotions
          && (t.promotions[q].status != Pending ==> u.promotions[q] == t.promotions[q])
          && u.promotions[q] == t.promotions[q].(status := u.promotions[q].status, updatedAt := u.promotions[q].updatedAt))
    && (forall q <- t.decisions :: q in u.decisions && u.decisions[q] == t.decisions[q])
  }

  lemma AdvanceGrows(t: Tables, u: Tables, f: FactKey, r: Revision, op: ChangeOperation, now: Time)
    requires InRange(t) && Paired(t) && Advances(t, u, f, r, op, now)
    requires f in t.heads ==> t.heads[f].status == Active
    ensures Grows(t, u, f.org)
  {
  }

  lemma InvalidateLockedGrows(t: Tables, actor: Actor, f: FactKey, l: Locked, reason: string, now: Time)
    requires InRange(t) && OneRevision(t) && Paired(t) && HeadsAgree(t) && LockedIn(t, f, l) && f.org == actor.org
    requires InvalidateLocked(t, actor, f, l, reason, now).Ok?
    ensures Grows(t, InvalidateLocked(t, actor, f, l, reason, now).value.0, actor.org)
  {
    hide InRange, OneRevision, Paired, HeadsAgree, Grows;
    var u := InvalidateLocked(t, actor, f, l, reason, now).value.0;
    InvalidateLockedAdvances(t, actor, f, l, reason, now);
    AdvanceGrows(t, u, f, u.revisions[t.uuids], WasInvalidated, now);
  }

  lemma {:induction false} SupersedeAllGrows(t: Tables, actor: Actor, newId: string, rid: Uuid, targets: seq<string>,
                                             locked: map<string, Locked>, now: Time)
    requires Core(t) && Superseding(t, actor.org, newId, rid, targets, locked)
    requires SupersedeAll(t, actor, newId, rid, targets, locked, now).Ok?
    ensures var u := SupersedeAll(t, actor, newId, rid, targets, locked, now).value;
            Grows(t, u, actor.org) && u.promotions == t.promotions && u.decisions == t.decisions
    decreases |targets|
  {
    hide InRange, OneRevision, NoGaps, Paired, HeadsAgree, CreatorsAgree, LastInvalidated, Grows;
    hide Relations, PromotionRows, PromotionSources, OnePending, ApprovalsTaken, PromotedApproved, ContentPinned;
    if targets == [] {
      GrowsByRelation(t, {}, actor.org);
      assert t.(relations := t.relations + {}) == t;
    } else {
      var f := FactKey(actor.org, targets[0]);
      var m := InvalidateLocked(t, actor, f, locked[targets[0]], ReplacedBy(newId), now).value.0;
      var x := Relation(FactKey(actor.org, newId), f, rid);
      var w := m.(relations := m.relations + {x});
      InvalidateLockedGrows(t, actor, f, locked[targets[0]], ReplacedBy(newId), now);
      GrowsByRelation(m, {x}, actor.org);
      GrowsTransitive(t, m, w, actor.org);
      SupersedeOneKeepsCore(t, m, actor, newId, rid, targets, locked, now);
      SupersedeAllGrows(w, actor, newId, rid, targets[1..], locked, now);
      GrowsTransitive(t, w, SupersedeAll(w, actor, newId, rid, targets[1..], locked, now).value, actor.org);
    }
  }

  lemma GrowsByRelation(t: Tables, xs: set<Relation>, org: OrgId)
    requires forall x <- xs :: x.from.org == x.to.org == org
    ensures Grows(t, t.(relations := t.relations + xs), org)
  {
  }

  lemma InsertFactGrows(t: Tables, actor: Actor, command: CreateFact, now: Time)
    requires InRange(t) && Paired(t) && FactKey(actor.org, command.factId) !in t.heads
    ensures Grows(t, InsertFact(t, actor, command, now), actor.org)
  {
  }

  lemma CreateBodyGrows(t: Tables, actor: Actor, command: CreateFact, expected: map<string, int>, now: Time)
    requires Core(t) && HeadsHaveRevisions(t) && CreateBody(t, actor, command, expected, now).Ok?
    ensures var u := CreateBody(t, actor, command, expected, now).value.0;
            Grows(t, u, actor.org) && u.promotions == t.promotions && u.decisions == t.decisions
  {
    hide InRange, OneRevision, NoGaps, Paired, HeadsAgree, CreatorsAgree, LastInvalidated, Grows;
    hide Relations, PromotionRows, PromotionSources, OnePending, ApprovalsTaken, PromotedApproved, ContentPinned;
    var m := InsertFact(t, actor, command, now);
    SupersedeErrorNone(t, actor.org, command.supersedes, expected);
    InsertFactKeepsCore(t, actor, command, now);
    InsertFactGrows(t, actor, command, now);
    SupersedingStarts(t, actor, command, now);
    SupersedeAllGrows(m, actor, command.factId, t.uuids, command.supersedes, LockedHeads(t, actor.org, command.supersedes), now);
    GrowsTransitive(t, m, CreateBody(t, actor, command, expected, now).value.0, actor.org);
  }

  lemma SettleGrows(t: Tables, u: Tables, q: Uuid, status: RequestStatus, org: OrgId)
    requires PromotionRows(t) && SameRevisions(t, u) && Settles(t, u, q, status)
    ensures Grows(t, u, org) && PromotionsSettle(t, u)
  {
  }

  lemma PromoteGrows(t: Tables, actor: Actor, f: FactKey, rationale: string, now: Time)
    requires Core(t) && HeadsHaveRevisions(t) && f in t.heads && f.org == actor.org && t.heads[f].status == Active
    ensures var m := Promote(t, actor, f, rationale, now);
            && Grows(t, m, actor.org) && PromotionRows(m) && m.promotions == t.promotions && m.decisions == t.decisions
  {
    hide NoGaps, CreatorsAgree, LastInvalidated, Relations, ApprovalsTaken, PromotedApproved, ContentPinned, Grows;
    var m := Promote(t, actor, f, rationale, now);
    PromoteAdvances(t, actor, f, rationale, now);
    hide Promote;
    AdvanceGrows(t, m, f, m.revisions[t.uuids], Promoted, now);
    AdvanceKeepsPromotions(t, m, f, m.revisions[t.uuids], Promoted, now);
  }

  lemma DecideBodyGrows(t: Tables, actor: Actor, q: Uuid, verdict: Verdict, rationale: string, expected: int, now: Time)
    requires Core(t) && Open(t)
    requires DecideBody(t, actor, q, verdict, rationale, expected, now).Ok?
    ensures var u := DecideBody(t, actor, q, verdict, rationale, expected, now).value.0;
            Grows(t, u, actor.org) && PromotionsSettle(t, u)
  {
    hide InRange, OneRevision, NoGaps, Paired, HeadsAgree, CreatorsAgree, LastInvalidated;
    hide Relations, PromotionRows, PromotionSources, OnePending, ApprovalsTaken, PromotedApproved, ContentPinned;
    hide Grows, PromotionsSettle;
    var u := DecideBody(t, actor, q, verdict, rationale, expected, now).value.0;
    var p := t.promotions[q];
    hide Promote;
    if t.heads[p.fact].currentVersion != p.sourceVersion {
      SettleGrows(t, u, q, Stale, actor.org);
    } else if verdict == Reject {
      SettleGrows(t, u, q, Rejected, actor.org);
    } else {
      var m := Promote(t, actor, p.fact, rationale, now);
      PendingHeadIsActive(t, q);
      PromoteGrows(t, actor, p.fact, rationale, now);
      SettleGrows(m, u, q, Approved, actor.org);
      GrowsTransitive(t, m, u, actor.org);
      SettleFrom(t, m, u);
    }
  }

  lemma SettleFrom(t: Tables, m: Tables, u: Tables)
    requires t.promotions == m.promotions && t.decisions == m.decisions && PromotionsSettle(m, u)
    ensures PromotionsSettle(t, u)
  {
  }

  lemma ProposeBodyGrows(t: Tables, actor: Actor, factId: string, reason: string, now: Time)
    requires PromotionRows(t) && ProposeBody(t, actor, factId, reason, now).Ok?
    ensures var u := ProposeBody(t, actor, factId, reason, now).value.0;
            Grows(t, u, actor.org) && PromotionsSettle(t, u)
  {
  }

  lemma InvalidateBodyGrows(t: Tables, actor: Actor, c: InvalidateFact, expected: int, now: Time)
    requires InRange(t) && OneRevision(t) && Paired(t) && HeadsAgree(t) && HeadsHaveRevisions(t)
    requires InvalidateBody(t, actor, c, expected, now).Ok?
    ensures var u := InvalidateBody(t, actor, c, expected, now).value.0;
            Grows(t, u, actor.org) && PromotionsSettle(t, u)
  {
    hide Grows;
    var f := FactKey(actor.org, c.factId);
    InvalidateLockedGrows(t, actor, f, LockHead(t, f).value, c.reason, now);
  }

  lemma BodyGrows(t: Tables, a: Attempt)
    requires Core(t) && Open(t) && Body(t, a).Ok?
    ensures Grows(t, Body(t, a).value.0, a.actor.org) && PromotionsSettle(t, Body(t, a).value.0)
  {
    hide InRange, OneRevision, NoGaps, Paired, HeadsAgree, CreatorsAgree, LastInvalidated;
    hide Relations, PromotionRows, PromotionSources, OnePending, ApprovalsTaken, PromotedApproved, ContentPinned;
    hide CreateBody, InvalidateBody, ProposeBody, DecideBody, Grows;
    match a
    case Create(actor, c, superseded, _, now) => CreateBodyGrows(t, actor, c, superseded, now);
    case Invalidate(actor, c, expected, _, now) =>
      InvalidateBodyGrows(t, actor, c, expected, now);
    case Propose(actor, f, reason, _, now) => ProposeBodyGrows(t, actor, f, reason, now);
    case Decide(actor, id, verdict, rationale, expected, _, now) =>
      DecideBodyGrows(t, actor, id.uuid.value, verdict, rationale, expected, now);
  }

  ghost predicate IdempotencyKept(t: Tables, u: Tables) {
    forall k <- t.idempotency :: k in u.idempotency && u.idempotency[k] == t.idempotency[k]
  }

  /** Only idempotency records differ between t and t0, and between b and u. */
  lemma GrowsAround(t: Tables, t0: Tables, b: Tables, u: Tables, org: OrgId)
    requires t0 == t.(idempotency := t0.idempotency) && u == b.(idempotency := u.idempotency)
    requires Grows(t0, b, org) && PromotionsSettle(t0, b)
    ensures Grows(t, u, org) && PromotionsSettle(t, u)
  {
  }

  lemma GrowsReflexive(t: Tables, org: OrgId)
    ensures Grows(t, t, org) && PromotionsSettle(t, t) && IdempotencyKept(t, t)
  {
  }

  lemma AttemptGrows(policy: ContentPolicy, t: Tables, a: Attempt)
    requires Inv(t) && Open(t)
    ensures var u := Attempted(policy, t, a).0;
            Grows(t, u, a.actor.org) && PromotionsSettle(t, u) && IdempotencyKept(t, u)
  {
    hide Core, Open, Recorded, Attempted, Body, Admitted, RequestOf, Grows, PromotionsSettle;
    AttemptCases(policy, t, a);
    var t0 := Begun(t, a);
    CoreIgnoresIdempotency(t, t0);
    var u := Attempted(policy, t, a).0;
    if u == t {
      GrowsReflexive(t, a.actor.org);
    } else {
      CoreIsOpen(t0);
      BodyGrows(t0, a);
      BodyAnswers(t0, a);
      GrowsAround(t, t0, Body(t0, a).value.0, u, a.actor.org);
    }
  }
}
