/** The fact and approval repositories as objects that change the tables statement by statement. */
module Repository {
  import opened Domain
  import opened Tables
  import StoreTheorems
  import Spec = Tables
  import opened StoreRuns

  /** One database: a table a field. */
  class Database {
    var heads: map<FactKey, Head>
    var revisions: map<Uuid, Revision>
    var relations: set<Relation>
    var events: map<Uuid, Event>
    var promotions: map<Uuid, Promotion>
    var decisions: map<Uuid, Decision>
    var idempotency: map<IdempotencyKey, IdempotencyRecord>
    var uuids: Uuid

    constructor ()
      ensures Snapshot() == EMPTY
    {
      heads, revisions, relations, events := map[], map[], {}, map[];
      promotions, decisions, idempotency, uuids := map[], map[], map[], 0;
    }

    function Snapshot(): Tables
      reads this
    {
      Tables(heads, revisions, relations, events, promotions, decisions, idempotency, uuids)
    }

    method Rollback(t: Tables)
      modifies this
      ensures Snapshot() == t
    {
      heads, revisions, relations, events := t.heads, t.revisions, t.relations, t.events;
      promotions, decisions, idempotency, uuids := t.promotions, t.decisions, t.idempotency, t.uuids;
    }

    method FreshUuid() returns (id: Uuid)
      modifies this`uuids
      ensures id == old(uuids) && uuids == old(uuids) + 1
    {
      id := uuids;
      uuids := uuids + 1;
    }

    /** Claims the key for this transaction, or reports what the key already stands for. */
    method BeginIdempotent(key: IdempotencyKey, request: Request) returns (begin: Begin)
      modifies this`idempotency
      ensures begin == Spec.BeginIdempotent(old(Snapshot()), key, request)
      ensures Snapshot() == if begin.Fresh? then begin.tables else old(Snapshot())
    {
      if key !in idempotency {
        idempotency := idempotency[key := IdempotencyRecord(request, None)];
        return Fresh(Snapshot());
      }
      var row := idempotency[key];
      if row.request != request {
        return Refused(IdempotencyConflict(key.key));
      }
      if row.response.None? {
        return Refused(ResponseMissing);
      }
      return Replay(row.response.value);
    }

    method FinishIdempotent(key: IdempotencyKey, request: Request, response: Response)
      modifies this`idempotency
      ensures Snapshot() == Spec.FinishIdempotent(old(Snapshot()), key, request, response)
    {
      idempotency := idempotency[key := IdempotencyRecord(request, Some(response))];
    }
  }

  class FactRepository {
    const database: Database
    const policy: ContentPolicy

    constructor (database: Database, policy: ContentPolicy)
      ensures this.database == database && this.policy == policy
    {
      this.database, this.policy := database, policy;
    }

    method Get(f: FactKey) returns (r: Result<FactRecord>)
      requires HeadsHaveRevisions(database.Snapshot())
      ensures r == GetFact(database.Snapshot(), f)
    {
      if f !in database.heads {
        return Err(FactMissing(f.id));
      }
      var h := database.heads[f];
      var row := database.revisions[h.currentRevision];
      return Ok(FactRecord(f, h.currentVersion, row.payload, h.status, row.invalidationReason,
                           h.createdBy, h.createdAt, h.updatedBy, h.updatedAt));
    }

    method LockHeads(org: OrgId, ids: seq<string>) returns (locked: map<string, Locked>)
      requires HeadsHaveRevisions(database.Snapshot())
      ensures locked == LockedHeads(database.Snapshot(), org, ids)
    {
      locked := map[];
      for i := 0 to |ids|
        invariant locked == LockedHeads(database.Snapshot(), org, ids[..i])
      {
        assert ids[..i + 1] == ids[..i] + [ids[i]];
        var f := FactKey(org, ids[i]);
        if f in database.heads {
          var head := database.heads[f];
          locked := locked[ids[i] := Locked(head, database.revisions[head.currentRevision].payload)];
        }
      }
      assert ids[..|ids|] == ids;
    }

    /** On an error the caller rolls the transaction back. */
    method InvalidateLocked(actor: Actor, f: FactKey, locked: Locked, reason: string, now: Time)
      returns (r: Result<WriteResult>)
      modifies database
      ensures match Spec.InvalidateLocked(old(database.Snapshot()), actor, f, locked, reason, now)
              case Ok((u, w)) => r == Ok(w) && database.Snapshot() == u
              case Err(e) => r == Err(e)
    {
      var version := locked.head.currentVersion + 1;
      if VersionTaken(database.Snapshot(), f, version) {
        return Err(IntegrityError);
      }
      var id := database.FreshUuid();
      database.revisions := database.revisions[id := Revision(
        f, version, locked.payload, Invalidated, Some(reason), reason, actor.id, now)];
      var updated := 0;
      if f in database.heads && database.heads[f].currentVersion == locked.head.currentVersion {
        database.heads := database.heads[f := database.heads[f].(
          status := Invalidated, currentVersion := version, currentRevision := id,
          updatedBy := actor.id, updatedAt := now)];
        updated := 1;
      }
      if updated != 1 {
        return Err(RevisionConflict(f.id, locked.head.currentVersion, version));
      }
      database.events := database.events[id := NewEvent(f, version, WasInvalidated, now)];
      return Ok(WriteResult(f.id, version, false, id));
    }

    method Create(actor: Actor, command: CreateFact, expected: map<string, int>, key: string, now: Time)
      returns (r: Result<WriteResult>)
      requires HeadsHaveRevisions(database.Snapshot())
      modifies database
      ensures (database.Snapshot(), r) == CreateTx(policy, old(database.Snapshot()), actor, command, expected, key, now)
      ensures r == Err(PolicyViolation) <==>
                || "writer" !in actor.roles
                || (command.payload.kind.Philosophy? && "philosophy:write" !in actor.roles)
                || (command.payload.sourceType.User? && "human-authored:write" !in actor.roles)
                || (command.payload.namespace == "plk.shared" && "shared:write" !in actor.roles)
                || (command.payload.sourceType.ExternalUntrusted? && command.payload.namespace != "plk.quarantine")
                || |command.payload.body| > 2000 || !policy(command.factId, command.payload)
    {
      StoreTheorems.CreateTxRefusedExactly(policy, database.Snapshot(), actor, command, expected, key, now);
      if !CreateAllowed(policy, actor, command) {
        return Err(PolicyViolation);
      }
      var before := database.Snapshot();
      var k, request := IdempotencyKey(actor.org, key), CreateRequest(actor.id, command);
      var begin := database.BeginIdempotent(k, request);
      if begin.Refused? {
        return Err(begin.error);
      }
      if begin.Replay? {
        return ReplayedWrite(begin.response);
      }
      r := CreateFresh(actor, command, expected, now);
      if r.Err? {
        database.Rollback(before);
      } else {
        database.FinishIdempotent(k, request, Written(r.value));
      }
    }

    /** The targets are checked against their locked heads in the order the command names them. */
    method CheckSuperseded(org: OrgId, ids: seq<string>, expected: map<string, int>, superseded: map<string, Locked>)
      returns (error: Option<Error>)
      requires HeadsHaveRevisions(database.Snapshot())
      requires forall id <- ids :: id in expected
      requires superseded == LockedHeads(database.Snapshot(), org, ids)
      ensures error == SupersedeError(database.Snapshot(), org, ids, expected)
    {
      for i := 0 to |ids|
        invariant SupersedeError(database.Snapshot(), org, ids, expected) ==
                  SupersedeError(database.Snapshot(), org, ids[i..], expected)
      {
        assert ids[i..][1..] == ids[i + 1..];
        if ids[i] !in superseded {
          return Some(FactMissing(ids[i]));
        }
        var head := superseded[ids[i]].head;
        if head.currentVersion != expected[ids[i]] {
          return Some(RevisionConflict(ids[i], expected[ids[i]], head.currentVersion));
        }
        if head.status != Active {
          return Some(RevisionConflict(ids[i], expected[ids[i]], head.currentVersion));
        }
      }
      return None;
    }

    method Insert(actor: Actor, command: CreateFact, now: Time) returns (id: Uuid)
      modifies database
      ensures database.Snapshot() == InsertFact(old(database.Snapshot()), actor, command, now)
      ensures id == old(database.uuids)
    {
      var f := FactKey(actor.org, command.factId);
      id := database.FreshUuid();
      database.heads := database.heads[f := Head(
        command.payload.kind, command.payload.namespace, Active, 1, id, actor.id, now, actor.id, now)];
      database.revisions := database.revisions[id := Revision(
        f, 1, command.payload, Active, None, command.changeReason, actor.id, now)];
      database.events := database.events[id := NewEvent(f, 1, Created, now)];
    }

    method Supersede(actor: Actor, newId: string, revisionId: Uuid, ids: seq<string>, superseded: map<string, Locked>, now: Time)
      returns (error: Option<Error>)
      requires forall id <- ids :: id in superseded
      modifies database
      ensures match SupersedeAll(old(database.Snapshot()), actor, newId, revisionId, ids, superseded, now)
              case Ok(u) => error == None && database.Snapshot() == u
              case Err(e) => error == Some(e)
    {
      ghost var all := SupersedeAll(database.Snapshot(), actor, newId, revisionId, ids, superseded, now);
      for i := 0 to |ids|
        invariant all == SupersedeAll(database.Snapshot(), actor, newId, revisionId, ids[i..], superseded, now)
      {
        assert ids[i..][1..] == ids[i + 1..];
        var target := FactKey(actor.org, ids[i]);
        var one := InvalidateLocked(actor, target, superseded[ids[i]], ReplacedBy(newId), now);
        if one.Err? {
          return Some(one.error);
        }
        database.relations := database.relations + {Relation(FactKey(actor.org, newId), target, revisionId)};
      }
      return None;
    }

    /** The body of the create transaction. On an error the caller rolls it back. */
    method CreateFresh(actor: Actor, command: CreateFact, expected: map<string, int>, now: Time)
      returns (r: Result<WriteResult>)
      requires HeadsHaveRevisions(database.Snapshot())
      modifies database
      ensures match CreateBody(old(database.Snapshot()), actor, command, expected, now)
              case Ok((u, w)) => r == Ok(w) && database.Snapshot() == u
              case Err(e) => r == Err(e)
    {
      var ids := command.supersedes;
      if (set id <- ids) != expected.Keys {
        return Err(ValueError);
      }
      if FactKey(actor.org, command.factId) in database.heads {
        return Err(FactAlreadyExists(command.factId));
      }
      assert forall id <- ids :: id in expected.Keys;
      var superseded := LockHeads(actor.org, ids);
      var error := CheckSuperseded(actor.org, ids, expected, superseded);
      if error.Some? {
        return Err(error.value);
      }
      SupersedeErrorNone(database.Snapshot(), actor.org, ids, expected);
      var id := Insert(actor, command, now);
      error := Supersede(actor, command.factId, id, ids, superseded, now);
      if error.Some? {
        return Err(error.value);
      }
      return Ok(WriteResult(command.factId, 1, false, id));
    }

    method Invalidate(actor: Actor, command: InvalidateFact, expected: int, key: string, now: Time)
      returns (r: Result<WriteResult>)
      requires HeadsHaveRevisions(database.Snapshot())
      modifies database
      ensures (database.Snapshot(), r) == InvalidateTx(old(database.Snapshot()), actor, command, expected, key, now)
    {
      if "writer" !in actor.roles {
        return Err(PolicyViolation);
      }
      var before := database.Snapshot();
      var k, request := IdempotencyKey(actor.org, key), InvalidateRequest(actor.id, command);
      var begin := database.BeginIdempotent(k, request);
      if begin.Refused? {
        return Err(begin.error);
      }
      if begin.Replay? {
        return ReplayedWrite(begin.response);
      }
      var heads := LockHeads(actor.org, [command.factId]);
      if command.factId !in heads {
        database.Rollback(before);
        return Err(FactMissing(command.factId));
      }
      var locked := heads[command.factId];
      if locked.head.currentVersion != expected || locked.head.status != Active {
        database.Rollback(before);
        return Err(RevisionConflict(command.factId, expected, locked.head.currentVersion));
      }
      r := InvalidateLocked(actor, FactKey(actor.org, command.factId), locked, command.reason, now);
      if r.Err? {
        database.Rollback(before);
      } else {
        database.FinishIdempotent(k, request, Written(r.value));
      }
    }
  }

  class ApprovalRepository {
    const database: Database

    constructor (database: Database)
      ensures this.database == database
    {
      this.database := database;
    }

    method Propose(actor: Actor, factId: string, reason: string, key: string, now: Time) returns (r: Result<Promotion>)
      modifies database
      ensures (database.Snapshot(), r) == ProposeTx(old(database.Snapshot()), actor, factId, reason, key, now)
    {
      if |Strip(reason)| < 5 {
        return Err(ValueError);
      }
      var before := database.Snapshot();
      var k, request := IdempotencyKey(actor.org, key), ProposeRequest(actor.id, factId, reason);
      var begin := database.BeginIdempotent(k, request);
      if begin.Refused? {
        return Err(begin.error);
      }
      if begin.Replay? {
        return if begin.response.Proposed? then Ok(begin.response.promotion) else Err(ValidationError);
      }
      var f := FactKey(actor.org, factId);
      if f !in database.heads {
        database.Rollback(before);
        return Err(FactMissing(factId));
      }
      var head := database.heads[f];
      if head.status != Active || !IsDomainNamespace(head.namespace) || HasPending(database.Snapshot(), f) {
        database.Rollback(before);
        return Err(PolicyViolation);
      }
      var id := database.FreshUuid();
      var p := Promotion(id, f, head.currentVersion, Pending, actor.id, reason, now, now);
      database.promotions := database.promotions[id := p];
      database.FinishIdempotent(k, request, Proposed(p));
      return Ok(p);
    }

    method Decide(actor: Actor, id: RequestId, verdict: Verdict, rationale: string, expected: int, key: string, now: Time)
      returns (r: Result<DecisionResult>)
      requires HeadsHaveRevisions(database.Snapshot())
      requires forall q <- database.promotions :: database.promotions[q].fact in database.heads
      modifies database
      ensures (database.Snapshot(), r) == DecideTx(old(database.Snapshot()), actor, id, verdict, rationale, expected, key, now)
    {
      if "reviewer" !in actor.roles && "admin" !in actor.roles {
        return Err(PolicyViolation);
      }
      if |Strip(rationale)| < 5 {
        return Err(ValueError);
      }
      if id.uuid.None? {
        return Err(ValueError);
      }
      var before := database.Snapshot();
      var k, request := IdempotencyKey(actor.org, key), DecideRequest(actor.id, id, verdict, rationale, expected);
      var begin := database.BeginIdempotent(k, request);
      if begin.Refused? {
        return Err(begin.error);
      }
      if begin.Replay? {
        return if begin.response.Decided? then Ok(begin.response.decision.(replayed := true)) else Err(ValidationError);
      }
      r := DecideFresh(actor, id.uuid.value, verdict, rationale, expected, now);
      if r.Err? {
        database.Rollback(before);
      } else {
        database.FinishIdempotent(k, request, Decided(r.value));
      }
    }

    /** Adds the shared revision of a fact, moves its head there and announces it. */
    method PromoteHead(actor: Actor, f: FactKey, rationale: string, now: Time) returns (id: Uuid)
      requires HeadsHaveRevisions(database.Snapshot()) && f in database.heads
      modifies database
      ensures id == old(database.uuids)
      ensures database.Snapshot() == Promote(old(database.Snapshot()), actor, f, rationale, now)
    {
      var head := database.heads[f];
      var source := database.revisions[head.currentRevision];
      var version := head.currentVersion + 1;
      id := database.FreshUuid();
      database.revisions := database.revisions[id := Revision(
        f, version, source.payload.(namespace := SHARED), Active, None,
        "promotion approved: " + rationale, actor.id, now)];
      database.heads := database.heads[f := head.(
        namespace := SHARED, currentVersion := version, currentRevision := id,
        updatedBy := actor.id, updatedAt := now)];
      database.events := database.events[id := NewEvent(f, version, ChangeOperation.Promoted, now)];
    }

    /** The body of the decide transaction. On an error the caller rolls it back. */
    method DecideFresh(actor: Actor, q: Uuid, verdict: Verdict, rationale: string, expected: int, now: Time)
      returns (r: Result<DecisionResult>)
      requires HeadsHaveRevisions(database.Snapshot())
      requires forall q <- database.promotions :: database.promotions[q].fact in database.heads
      modifies database
      ensures match DecideBody(old(database.Snapshot()), actor, q, verdict, rationale, expected, now)
              case Ok((u, d)) => r == Ok(d) && database.Snapshot() == u
              case Err(e) => r == Err(e)
    {
      if q !in database.promotions || database.promotions[q].fact.org != actor.org {
        return Err(RequestMissing(q));
      }
      var row := database.promotions[q];
      if row.status != Pending {
        return Err(PolicyViolation);
      }
      var f := row.fact;
      var head := database.heads[f];
      if row.sourceVersion != expected {
        return Err(RevisionConflict(f.id, expected, row.sourceVersion));
      }
      if head.currentVersion != row.sourceVersion {
        row := row.(status := Stale, updatedAt := now);
        database.promotions := database.promotions[q := row];
        return Ok(DecisionResult(row, None, None, false));
      }
      if q in database.decisions {
        return Err(IntegrityError);
      }
      database.decisions := database.decisions[q := Decision(verdict, rationale, actor.id)];
      var eventId: Option<Uuid>, newVersion: Option<nat> := None, None;
      if verdict == Approve {
        var id := PromoteHead(actor, f, rationale, now);
        eventId, newVersion := Some(id), Some(head.currentVersion + 1);
      }
      row := row.(status := VerdictStatus(verdict), updatedAt := now);
      database.promotions := database.promotions[q := row];
      return Ok(DecisionResult(row, newVersion, eventId, false));
    }
  }
}
