/** The relational state, and every write transaction as a function from tables to tables.

    A transaction either commits the tables it returns, or returns an error together with the
    tables it was given: that is the rollback. */
module Tables {
  import opened Domain

  datatype Head = Head(
    kind: Kind, namespace: string, status: Status, currentVersion: nat, currentRevision: Uuid,
    createdBy: string, createdAt: Time, updatedBy: string, updatedAt: Time)

  datatype Revision = Revision(
    fact: FactKey, version: nat, payload: Payload, status: Status,
    invalidationReason: Option<string>, changeReason: string, actorId: string, createdAt: Time)

  datatype Relation = Relation(from: FactKey, to: FactKey, createdRevision: Uuid)

  datatype Lease = Lease(owner: string, token: Uuid, until: Time)

  datatype Event = Event(
    fact: FactKey, version: nat, op: ChangeOperation, occurredAt: Time, availableAt: Time,
    attempts: nat, lease: Option<Lease>, processedAt: Option<Time>, deadLetteredAt: Option<Time>)

  datatype RequestStatus = Pending | Approved | Rejected | Stale

  datatype Promotion = Promotion(
    id: Uuid, fact: FactKey, sourceVersion: nat, status: RequestStatus, requestedBy: string, reason: string,
    createdAt: Time, updatedAt: Time)

  datatype Verdict = Approve | Reject
  datatype Decision = Decision(verdict: Verdict, rationale: string, actorId: string)
  datatype DecisionResult = DecisionResult(
    request: Promotion, factRevision: Option<nat>, eventId: Option<Uuid>, replayed: bool)

  /** What a request hash is taken over. The hash is injective, so the value stands for it. */
  datatype Request =
    | CreateRequest(actorId: string, create: CreateFact)
    | InvalidateRequest(actorId: string, invalidate: InvalidateFact)
    | ProposeRequest(actorId: string, factId: string, reason: string)
    | DecideRequest(actorId: string, request: RequestId, verdict: Verdict, rationale: string, expectedRevision: int)

  /** How a caller writes the id of a promotion request, and the uuid that it reads as. */
  datatype RequestId = RequestId(text: string, uuid: Option<Uuid>)

  datatype Response =
    | Written(write: WriteResult)
    | Proposed(promotion: Promotion)
    | Decided(decision: DecisionResult)

  datatype IdempotencyKey = IdempotencyKey(org: OrgId, key: string)
  datatype IdempotencyRecord = IdempotencyRecord(request: Request, response: Option<Response>)

  datatype Tables = Tables(
    heads: map<FactKey, Head>,
    revisions: map<Uuid, Revision>,
    relations: set<Relation>,
    events: map<Uuid, Event>,
    promotions: map<Uuid, Promotion>,
    decisions: map<Uuid, Decision>,
    idempotency: map<IdempotencyKey, IdempotencyRecord>,
    uuids: Uuid)

  const EMPTY := Tables(map[], map[], {}, map[], map[], map[], map[], 0)

  /** The deferred foreign key from a head to its current revision. */
  ghost predicate HeadsHaveRevisions(t: Tables) {
    forall f <- t.heads :: t.heads[f].currentRevision in t.revisions
  }

  // ---- idempotency ------------------------------------------------------------------------

  datatype Begin = Fresh(tables: Tables) | Replay(response: Response) | Refused(error: Error)

  function BeginIdempotent(t: Tables, key: IdempotencyKey, request: Request): Begin {
    if key !in t.idempotency then
      Fresh(t.(idempotency := t.idempotency[key := IdempotencyRecord(request, None)]))
    else if t.idempotency[key].request != request then Refused(IdempotencyConflict(key.key))
    else match t.idempotency[key].response
         case None => Refused(ResponseMissing)
         case Some(response) => Replay(response)
  }

  function FinishIdempotent(t: Tables, key: IdempotencyKey, request: Request, response: Response): Tables {
    t.(idempotency := t.idempotency[key := IdempotencyRecord(request, Some(response))])
  }

  // ---- facts ------------------------------------------------------------------------------

  function NewEvent(fact: FactKey, version: nat, op: ChangeOperation, now: Time): Event {
    Event(fact, version, op, now, now, 0, None, None, None)
  }

  /** Schema and secret rules that do not depend on stored state are a predicate of the caller. */
  type ContentPolicy = (string, Payload) -> bool

  predicate CreateAllowed(policy: ContentPolicy, actor: Actor, command: CreateFact) {
    var payload := command.payload;
    && "writer" in actor.roles
    && (payload.kind == Philosophy ==> "philosophy:write" in actor.roles)
    && (payload.sourceType == User ==> "human-authored:write" in actor.roles)
    && (payload.namespace == SHARED ==> "shared:write" in actor.roles)
    && (payload.sourceType == ExternalUntrusted ==> payload.namespace == QUARANTINE)
    && |payload.body| <= 2000
    && policy(command.factId, payload)
  }

  /** A head locked for update, merged with its current revision. */
  datatype Locked = Locked(head: Head, payload: Payload)

  function LockHead(t: Tables, f: FactKey): Option<Locked>
    requires HeadsHaveRevisions(t)
  {
    if f in t.heads then Some(Locked(t.heads[f], t.revisions[t.heads[f].currentRevision].payload)) else None
  }

  predicate VersionTaken(t: Tables, f: FactKey, version: nat) {
    exists r <- t.revisions :: t.revisions[r].fact == f && t.revisions[r].version == version
  }

  function InvalidateLocked(t: Tables, actor: Actor, f: FactKey, locked: Locked, reason: string, now: Time)
    : Result<(Tables, WriteResult)>
  {
    var version := locked.head.currentVersion + 1;
    var revisionId, eventId := t.uuids, t.uuids;
    if VersionTaken(t, f, version) then Err(IntegrityError)
    else if f !in t.heads || t.heads[f].currentVersion != locked.head.currentVersion then
      Err(RevisionConflict(f.id, locked.head.currentVersion, version))
    else
      Ok((t.(
          heads := t.heads[f := t.heads[f].(
            status := Invalidated, currentVersion := version, currentRevision := revisionId,
            updatedBy := actor.id, updatedAt := now)],
          revisions := t.revisions[revisionId := Revision(
            f, version, locked.payload, Invalidated, Some(reason), reason, actor.id, now)],
          events := t.events[eventId := NewEvent(f, version, WasInvalidated, now)],
          uuids := t.uuids + 1),
          WriteResult(f.id, version, false, eventId)))
  }

  function InsertFact(t: Tables, actor: Actor, command: CreateFact, now: Time): Tables {
    var f := FactKey(actor.org, command.factId);
    var revisionId, eventId := t.uuids, t.uuids;
    t.(
    heads := t.heads[f := Head(
      command.payload.kind, command.payload.namespace, Active, 1, revisionId, actor.id, now, actor.id, now)],
    revisions := t.revisions[revisionId := Revision(
      f, 1, command.payload, Active, None, command.changeReason, actor.id, now)],
    events := t.events[eventId := NewEvent(f, 1, Created, now)],
    uuids := t.uuids + 1)
  }

  /** The first superseded fact that is missing, at another revision, or no longer active. */
  function SupersedeError(t: Tables, org: OrgId, targets: seq<string>, expected: map<string, int>): Option<Error>
    requires forall id <- targets :: id in expected
  {
    if targets == [] then None
    else
      var f := FactKey(org, targets[0]);
      if f !in t.heads then Some(FactMissing(targets[0]))
      else if t.heads[f].currentVersion != expected[targets[0]] || t.heads[f].status != Active then
        Some(RevisionConflict(targets[0], expected[targets[0]], t.heads[f].currentVersion))
      else SupersedeError(t, org, targets[1..], expected)
  }

  function LockedHeads(t: Tables, org: OrgId, targets: seq<string>): map<string, Locked>
    requires HeadsHaveRevisions(t)
  {
    map id | id in targets && FactKey(org, id) in t.heads :: LockHead(t, FactKey(org, id)).value
  }

  function SupersedeAll(t: Tables, actor: Actor, newId: string, revisionId: Uuid,
                        targets: seq<string>, locked: map<string, Locked>, now: Time): Result<Tables>
    requires forall id <- targets :: id in locked
    decreases |targets|
  {
    if targets == [] then Ok(t)
    else
      var target := FactKey(actor.org, targets[0]);
      match InvalidateLocked(t, actor, target, locked[targets[0]], ReplacedBy(newId), now)
      case Err(e) => Err(e)
      case Ok((t1, _)) =>
        var relation := Relation(FactKey(actor.org, newId), target, revisionId);
        SupersedeAll(t1.(relations := t1.relations + {relation}), actor, newId, revisionId, targets[1..], locked, now)
  }

  lemma SupersedeErrorNone(t: Tables, org: OrgId, targets: seq<string>, expected: map<string, int>)
    requires forall id <- targets :: id in expected
    requires SupersedeError(t, org, targets, expected).None?
    ensures forall id <- targets :: FactKey(org, id) in t.heads && t.heads[FactKey(org, id)].status == Active
                                    && t.heads[FactKey(org, id)].currentVersion == expected[id]
  {
    if targets != [] {
      SupersedeErrorNone(t, org, targets[1..], expected);
    }
  }

  function CreateBody(t: Tables, actor: Actor, command: CreateFact, expected: map<string, int>, now: Time)
    : Result<(Tables, WriteResult)>
    requires HeadsHaveRevisions(t)
  {
    if (set id <- command.supersedes) != expected.Keys then Err(ValueError)
    else if FactKey(actor.org, command.factId) in t.heads then Err(FactAlreadyExists(command.factId))
    else match SupersedeError(t, actor.org, command.supersedes, expected)
         case Some(e) => Err(e)
         case None =>
           SupersedeErrorNone(t, actor.org, command.supersedes, expected);
           var locked := LockedHeads(t, actor.org, command.supersedes);
           match SupersedeAll(InsertFact(t, actor, command, now), actor, command.factId, t.uuids,
                              command.supersedes, locked, now)
           case Err(e) => Err(e)
           case Ok(t1) => Ok((t1, WriteResult(command.factId, 1, false, t.uuids)))
  }

  /** The answer to a write that was recorded under the same key and the same request. */
  function ReplayedWrite(response: Response): Result<WriteResult> {
    if response.Written? then Ok(response.write.(replayed := true)) else Err(ValidationError)
  }

  function CreateTx(policy: ContentPolicy, t: Tables, actor: Actor, command: CreateFact,
                    expected: map<string, int>, key: string, now: Time): (Tables, Result<WriteResult>)
    requires HeadsHaveRevisions(t)
  {
    var k, request := IdempotencyKey(actor.org, key), CreateRequest(actor.id, command);
    if !CreateAllowed(policy, actor, command) then (t, Err(PolicyViolation))
    else match BeginIdempotent(t, k, request)
         case Refused(e) => (t, Err(e))
         case Replay(response) => (t, ReplayedWrite(response))
         case Fresh(t0) =>
           match CreateBody(t0, actor, command, expected, now)
           case Err(e) => (t, Err(e))
           case Ok((t1, w)) => (FinishIdempotent(t1, k, request, Written(w)), Ok(w))
  }

  function InvalidateBody(t: Tables, actor: Actor, command: InvalidateFact, expected: int, now: Time)
    : Result<(Tables, WriteResult)>
    requires HeadsHaveRevisions(t)
  {
    var f := FactKey(actor.org, command.factId);
    match LockHead(t, f)
    case None => Err(FactMissing(command.factId))
    case Some(locked) =>
      if locked.head.currentVersion != expected || locked.head.status != Active then
        Err(RevisionConflict(command.factId, expected, locked.head.currentVersion))
      else InvalidateLocked(t, actor, f, locked, command.reason, now)
  }

  function InvalidateTx(t: Tables, actor: Actor, command: InvalidateFact, expected: int, key: string, now: Time)
    : (Tables, Result<WriteResult>)
    requires HeadsHaveRevisions(t)
  {
    var k, request := IdempotencyKey(actor.org, key), InvalidateRequest(actor.id, command);
    if "writer" !in actor.roles then (t, Err(PolicyViolation))
    else match BeginIdempotent(t, k, request)
         case Refused(e) => (t, Err(e))
         case Replay(response) => (t, ReplayedWrite(response))
         case Fresh(t0) =>
           match InvalidateBody(t0, actor, command, expected, now)
           case Err(e) => (t, Err(e))
           case Ok((t1, w)) => (FinishIdempotent(t1, k, request, Written(w)), Ok(w))
  }

  // ---- approvals --------------------------------------------------------------------------

  predicate HasPending(t: Tables, f: FactKey) {
    exists q <- t.promotions :: t.promotions[q].fact == f && t.promotions[q].status == Pending
  }

  function ProposeBody(t: Tables, actor: Actor, factId: string, reason: string, now: Time)
    : Result<(Tables, Promotion)>
  {
    var f := FactKey(actor.org, factId);
    if f !in t.heads then Err(FactMissing(factId))
    else if t.heads[f].status != Active then Err(PolicyViolation)
    else if !IsDomainNamespace(t.heads[f].namespace) then Err(PolicyViolation)
    else if HasPending(t, f) then Err(PolicyViolation)
    else
      var p := Promotion(t.uuids, f, t.heads[f].currentVersion, Pending, actor.id, reason, now, now);
      Ok((t.(promotions := t.promotions[t.uuids := p], uuids := t.uuids + 1), p))
  }

  function ProposeTx(t: Tables, actor: Actor, factId: string, reason: string,
                     key: string, now: Time): (Tables, Result<Promotion>)
  {
    var k, request := IdempotencyKey(actor.org, key), ProposeRequest(actor.id, factId, reason);
    if |Strip(reason)| < 5 then (t, Err(ValueError))
    else match BeginIdempotent(t, k, request)
         case Refused(e) => (t, Err(e))
         case Replay(response) =>
           (t, if response.Proposed? then Ok(response.promotion) else Err(ValidationError))
         case Fresh(t0) =>
           match ProposeBody(t0, actor, factId, reason, now)
           case Err(e) => (t, Err(e))
           case Ok((t1, p)) => (FinishIdempotent(t1, k, request, Proposed(p)), Ok(p))
  }

  function VerdictStatus(verdict: Verdict): RequestStatus {
    if verdict == Approve then Approved else Rejected
  }

  /** The new revision, head and event of an approved promotion. The status column of the head is not written. */
  function Promote(t: Tables, actor: Actor, f: FactKey, rationale: string, now: Time): Tables
    requires HeadsHaveRevisions(t) && f in t.heads
  {
    var head := t.heads[f];
    var source := t.revisions[head.currentRevision];
    var revisionId, eventId, version := t.uuids, t.uuids, head.currentVersion + 1;
    t.(
    revisions := t.revisions[revisionId := Revision(
      f, version, source.payload.(namespace := SHARED), Active, None,
      "promotion approved: " + rationale, actor.id, now)],
    heads := t.heads[f := head.(
      namespace := SHARED, currentVersion := version, currentRevision := revisionId,
      updatedBy := actor.id, updatedAt := now)],
    events := t.events[eventId := NewEvent(f, version, Promoted, now)],
    uuids := t.uuids + 1)
  }

  function Settle(t: Tables, q: Uuid, status: RequestStatus, now: Time): Tables
    requires q in t.promotions
  {
    t.(promotions := t.promotions[q := t.promotions[q].(status := status, updatedAt := now)])
  }

  function DecideBody(t: Tables, actor: Actor, q: Uuid, verdict: Verdict, rationale: string, expected: int, now: Time)
    : Result<(Tables, DecisionResult)>
    requires HeadsHaveRevisions(t)
    requires forall q <- t.promotions :: t.promotions[q].fact in t.heads
  {
    if q !in t.promotions || t.promotions[q].fact.org != actor.org then Err(RequestMissing(q))
    else
      var p := t.promotions[q];
      if p.status != Pending then Err(PolicyViolation)
      else if p.sourceVersion != expected then Err(RevisionConflict(p.fact.id, expected, p.sourceVersion))
      else if t.heads[p.fact].currentVersion != p.sourceVersion then
        var t1 := Settle(t, q, Stale, now);
        Ok((t1, DecisionResult(t1.promotions[q], None, None, false)))
      else if q in t.decisions then Err(IntegrityError)
      else
        var t1 := t.(decisions := t.decisions[q := Decision(verdict, rationale, actor.id)]);
        if verdict == Reject then
          var t2 := Settle(t1, q, Rejected, now);
          Ok((t2, DecisionResult(t2.promotions[q], None, None, false)))
        else
          var t2 := Settle(Promote(t1, actor, p.fact, rationale, now), q, Approved, now);
          Ok((t2, DecisionResult(t2.promotions[q], Some(p.sourceVersion + 1), Some(t1.uuids), false)))
  }

  function DecideTx(t: Tables, actor: Actor, id: RequestId, verdict: Verdict, rationale: string,
                    expected: int, key: string, now: Time): (Tables, Result<DecisionResult>)
    requires HeadsHaveRevisions(t)
    requires forall q <- t.promotions :: t.promotions[q].fact in t.heads
  {
    var k, request := IdempotencyKey(actor.org, key), DecideRequest(actor.id, id, verdict, rationale, expected);
    if "reviewer" !in actor.roles && "admin" !in actor.roles then (t, Err(PolicyViolation))
    else if |Strip(rationale)| < 5 || id.uuid.None? then (t, Err(ValueError))
    else match BeginIdempotent(t, k, request)
         case Refused(e) => (t, Err(e))
         case Replay(response) =>
           (t, if response.Decided? then Ok(response.decision.(replayed := true)) else Err(ValidationError))
         case Fresh(t0) =>
           match DecideBody(t0, actor, id.uuid.value, verdict, rationale, expected, now)
           case Err(e) => (t, Err(e))
           case Ok((t1, d)) => (FinishIdempotent(t1, k, request, Decided(d)), Ok(d))
  }

  // ---- reads ------------------------------------------------------------------------------

  function GetFact(t: Tables, f: FactKey): Result<FactRecord>
    requires HeadsHaveRevisions(t)
  {
    if f !in t.heads then Err(FactMissing(f.id))
    else
      var h, r := t.heads[f], t.revisions[t.heads[f].currentRevision];
      Ok(FactRecord(f, h.currentVersion, r.payload, h.status, r.invalidationReason,
                    h.createdBy, h.createdAt, h.updatedBy, h.updatedAt))
  }
}
