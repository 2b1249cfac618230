/** What holds of every state and every pair of steps of a run that starts from empty tables. */
module StoreTheorems {
  import opened Domain
  import opened Tables
  import opened StoreInvariant
  import opened StoreTransactions
  import opened StoreRuns

  /** The tables after the first n attempts. */
  ghost function StateAt(policy: ContentPolicy, attempts: seq<Attempt>, n: nat): (t: Tables)
    requires n <= |attempts|
    ensures Inv(t) && Open(t)
  {
    if n == 0 then EMPTY
    else
      var t := StateAt(policy, attempts, n - 1);
      AttemptKeepsInv(policy, t, attempts[n - 1]);
      Attempted(policy, t, attempts[n - 1]).0
  }

  ghost function AnswerAt(policy: ContentPolicy, attempts: seq<Attempt>, n: nat): Result<Response>
    requires n < |attempts|
  {
    Attempted(policy, StateAt(policy, attempts, n), attempts[n]).1
  }

  ghost function Final(policy: ContentPolicy, attempts: seq<Attempt>): Tables {
    StateAt(policy, attempts, |attempts|)
  }

  // ---- exactly once -----------------------------------------------------------------------

  lemma {:induction false} KeysKept(policy: ContentPolicy, attempts: seq<Attempt>, i: nat, j: nat)
    requires i <= j <= |attempts|
    ensures IdempotencyKept(StateAt(policy, attempts, i), StateAt(policy, attempts, j))
    decreases j - i
  {
    hide Inv, Open, Attempted;
    if i < j {
      KeysKept(policy, attempts, i, j - 1);
      AttemptGrows(policy, StateAt(policy, attempts, j - 1), attempts[j - 1]);
    }
  }

  /** A key commits at most one effect. Once attempt i has taken effect, every later attempt under its key
      leaves the tables alone: the same request is answered with the recorded response, whatever revision it
      now expects, and any other request is refused. */
  lemma ExactlyOnce(policy: ContentPolicy, attempts: seq<Attempt>, i: nat, j: nat)
    requires i < j < |attempts| && KeyOf(attempts[i]) == KeyOf(attempts[j])
    requires StateAt(policy, attempts, i + 1) != StateAt(policy, attempts, i)
    ensures StateAt(policy, attempts, j + 1) == StateAt(policy, attempts, j)
    ensures AnswerAt(policy, attempts, i).Ok?
    ensures Admitted(policy, attempts[j]) && RequestOf(attempts[j]) == RequestOf(attempts[i]) ==>
              AnswerAt(policy, attempts, j) == Ok(Replayed(AnswerAt(policy, attempts, i).value))
    ensures Admitted(policy, attempts[j]) && RequestOf(attempts[j]) != RequestOf(attempts[i]) ==>
              AnswerAt(policy, attempts, j) == Err(IdempotencyConflict(attempts[j].key))
    ensures !Admitted(policy, attempts[j]) ==> AnswerAt(policy, attempts, j).Err?
  {
    hide Core, Open, Recorded, Attempted, Body, Admitted, RequestOf, Begun, Replayed;
    var s, t := StateAt(policy, attempts, i), StateAt(policy, attempts, j);
    AttemptCases(policy, s, attempts[i]);
    AttemptCases(policy, t, attempts[j]);
    KeysKept(policy, attempts, i + 1, j);
  }

  /** A refused attempt changes nothing, so its key is as free as it was. */
  lemma FailureLeavesNoTrace(policy: ContentPolicy, attempts: seq<Attempt>, i: nat)
    requires i < |attempts| && AnswerAt(policy, attempts, i).Err?
    ensures StateAt(policy, attempts, i + 1) == StateAt(policy, attempts, i)
  {
    AttemptCases(policy, StateAt(policy, attempts, i), attempts[i]);
    hide Inv, Open, Attempted, Body, Admitted;
  }

  /** The answer to an attempt is always of the attempt's own operation and about its own resource. */
  lemma AnswersOwnRequest(policy: ContentPolicy, attempts: seq<Attempt>, i: nat)
    requires i < |attempts| && AnswerAt(policy, attempts, i).Ok?
    ensures Answers(RequestOf(attempts[i]), AnswerAt(policy, attempts, i).value)
  {
    var t := StateAt(policy, attempts, i);
    var t0 := Begun(t, attempts[i]);
    AttemptCases(policy, t, attempts[i]);
    CoreIgnoresIdempotency(t, t0);
    CoreIsOpen(t0);
    BodyAnswers(t0, attempts[i]);
    hide Core, Open, Attempted, Body, Admitted;
  }

  // ---- who may write ----------------------------------------------------------------------

  /** A create is refused as a violation of policy exactly when the actor lacks a role that the content needs, content
      from outside is meant for anywhere but the quarantine, the body is too long, or the content policy says no. */
  lemma CreateRefusedExactly(policy: ContentPolicy, attempts: seq<Attempt>, i: nat)
    requires i < |attempts| && attempts[i].Create?
    ensures var roles, c, p := attempts[i].actor.roles, attempts[i].create, attempts[i].create.payload;
            AnswerAt(policy, attempts, i) == Err(PolicyViolation) <==>
              || "writer" !in roles
              || (p.kind.Philosophy? && "philosophy:write" !in roles)
              || (p.sourceType.User? && "human-authored:write" !in roles)
              || (p.namespace == "plk.shared" && "shared:write" !in roles)
              || (p.sourceType.ExternalUntrusted? && p.namespace != "plk.quarantine")
              || |p.body| > 2000 || !policy(c.factId, p)
  {
    hide Inv, Open, CreateTx;
    var t, a := StateAt(policy, attempts, i), attempts[i];
    OpenHasRevisions(t);
    CreateTxRefusedExactly(policy, t, a.actor, a.create, a.superseded, a.key, a.now);
  }

  lemma NotAdmitted(policy: ContentPolicy, t: Tables, a: Attempt)
    requires Open(t) && !Admitted(policy, a) && a.Invalidate?
    ensures Attempted(policy, t, a) == (t, Err(PolicyViolation))
  {
    hide InvalidateBody;
  }

  /** The same of one create on any tables. */
  lemma CreateTxRefusedExactly(policy: ContentPolicy, t: Tables, actor: Actor, c: CreateFact, expected: map<string, int>, key: string, now: Time)
    requires HeadsHaveRevisions(t)
    ensures var roles, p := actor.roles, c.payload;
            CreateTx(policy, t, actor, c, expected, key, now).1 == Err(PolicyViolation) <==>
              || "writer" !in roles
              || (p.kind.Philosophy? && "philosophy:write" !in roles)
              || (p.sourceType.User? && "human-authored:write" !in roles)
              || (p.namespace == "plk.shared" && "shared:write" !in roles)
              || (p.sourceType.ExternalUntrusted? && p.namespace != "plk.quarantine")
              || |p.body| > 2000 || !policy(c.factId, p)
  {
    var k := IdempotencyKey(actor.org, key);
    var begun := t.(idempotency := t.idempotency[k := IdempotencyRecord(CreateRequest(actor.id, c), None)]);
    NoPolicyInCreate(begun, actor, c, expected, now);
    hide CreateBody;
  }

  lemma NoPolicyInCreate(t: Tables, actor: Actor, command: CreateFact, expected: map<string, int>, now: Time)
    requires HeadsHaveRevisions(t)
    ensures CreateBody(t, actor, command, expected, now) != Err(PolicyViolation)
  {
    hide InsertFact, LockedHeads, SupersedeAll;
    if (set id <- command.supersedes) == expected.Keys {
      assert forall id <- command.supersedes :: id in expected.Keys;
      NoPolicyInTargets(t, actor.org, command.supersedes, expected);
      if SupersedeError(t, actor.org, command.supersedes, expected).None? {
        SupersedeErrorNone(t, actor.org, command.supersedes, expected);
        var locked := LockedHeads(t, actor.org, command.supersedes);
        LockedHeadsHas(t, actor.org, command.supersedes);
        NoPolicyInSuperseding(InsertFact(t, actor, command, now), actor, command.factId, t.uuids, command.supersedes, locked, now);
      }
    }
  }

  lemma LockedHeadsHas(t: Tables, org: OrgId, ids: seq<string>)
    requires HeadsHaveRevisions(t)
    ensures forall id <- ids :: FactKey(org, id) in t.heads ==> id in LockedHeads(t, org, ids)
  {
  }

  lemma {:induction false} NoPolicyInTargets(t: Tables, org: OrgId, ids: seq<string>, expected: map<string, int>)
    requires forall id <- ids :: id in expected
    ensures SupersedeError(t, org, ids, expected) != Some(PolicyViolation)
  {
    if ids != [] {
      NoPolicyInTargets(t, org, ids[1..], expected);
    }
  }

  lemma {:induction false} NoPolicyInSuperseding(t: Tables, actor: Actor, newId: string, rid: Uuid, ids: seq<string>, locked: map<string, Locked>,
                                                 now: Time)
    requires forall id <- ids :: id in locked
    ensures SupersedeAll(t, actor, newId, rid, ids, locked, now) != Err(PolicyViolation)
    decreases |ids|
  {
    hide VersionTaken;
    if ids != [] {
      var f := FactKey(actor.org, ids[0]);
      var one := InvalidateLocked(t, actor, f, locked[ids[0]], ReplacedBy(newId), now);
      if one.Ok? {
        var m := one.value.0;
        NoPolicyInSuperseding(m.(relations := m.relations + {Relation(FactKey(actor.org, newId), f, rid)}), actor, newId, rid, ids[1..], locked, now);
      }
    }
  }

  /** Whatever changes a table was done by an actor who may: facts are created and invalidated by writers, and created
      with the roles their content needs; decisions are taken by reviewers and admins; and who asks for a promotion or
      decides on one says why. */
  lemma WhoMayWrite(policy: ContentPolicy, attempts: seq<Attempt>, i: nat)
    requires i < |attempts| && StateAt(policy, attempts, i + 1) != StateAt(policy, attempts, i)
    ensures var roles := attempts[i].actor.roles;
            match attempts[i]
            case Create(_, c, _, _, _) =>
              && "writer" in roles && |c.payload.body| <= 2000 && policy(c.factId, c.payload)
              && (c.payload.kind.Philosophy? ==> "philosophy:write" in roles)
              && (c.payload.sourceType.User? ==> "human-authored:write" in roles)
              && (c.payload.namespace == "plk.shared" ==> "shared:write" in roles)
              && (c.payload.sourceType.ExternalUntrusted? ==> c.payload.namespace == "plk.quarantine")
            case Invalidate(_, _, _, _, _) => "writer" in roles
            case Propose(_, _, reason, _, _) => |Strip(reason)| >= 5
            case Decide(_, _, _, rationale, _, _, _) => ("reviewer" in roles || "admin" in roles) && |Strip(rationale)| >= 5
  {
    hide Core, Open, Body, Attempted, Strip;
    AttemptCases(policy, StateAt(policy, attempts, i), attempts[i]);
  }

  lemma NoPolicyInInvalidate(t: Tables, a: Attempt)
    requires Open(t) && a.Invalidate?
    ensures Body(t, a) != Err(PolicyViolation)
  {
    hide VersionTaken;
  }

  /** A writer is never refused an invalidation as a violation of policy, and nobody else is let through. */
  lemma InvalidateRefusedExactly(policy: ContentPolicy, attempts: seq<Attempt>, i: nat)
    requires i < |attempts| && attempts[i].Invalidate?
    ensures AnswerAt(policy, attempts, i) == Err(PolicyViolation) <==> "writer" !in attempts[i].actor.roles
  {
    var t, a := StateAt(policy, attempts, i), attempts[i];
    hide Core, Open, Recorded, Attempted, Body;
    if !Admitted(policy, a) {
      NotAdmitted(policy, t, a);
    }
    AttemptCases(policy, t, a);
    CoreIgnoresIdempotency(t, Begun(t, a));
    CoreIsOpen(Begun(t, a));
    NoPolicyInInvalidate(Begun(t, a), a);
  }

  // ---- versions ---------------------------------------------------------------------------

  /** Every fact has exactly one revision and one outbox event for each version up to its head's, and none beyond. */
  lemma VersionBijection(policy: ContentPolicy, attempts: seq<Attempt>, f: FactKey, v: int)
    ensures var t := Final(policy, attempts);
            && (1 <= v <= Version(t, f) <==> exists r :: RevisionAt(t, f, v, r))
            && (1 <= v <= Version(t, f) <==> exists e :: EventAt(t, f, v, e))
            && (forall r, s :: RevisionAt(t, f, v, r) && RevisionAt(t, f, v, s) ==> r == s)
            && (forall d, e :: EventAt(t, f, v, d) && EventAt(t, f, v, e) ==> d == e)
  {
    var t := Final(policy, attempts);
    hide HeadsAgree, CreatorsAgree, LastInvalidated, Relations, Promotions, ApprovalsTaken, PromotedApproved, ContentPinned, Recorded, Open;
    if 1 <= v <= Version(t, f) {
      assert HasRevision(t, f, v);
      var r :| RevisionAt(t, f, v, r);
      assert EventAt(t, f, v, r);
    }
    forall d, e | EventAt(t, f, v, d) && EventAt(t, f, v, e) ensures d == e {
      assert RevisionAt(t, f, v, d) && RevisionAt(t, f, v, e);
    }
    forall e | EventAt(t, f, v, e) ensures 1 <= v <= Version(t, f) {
      assert RevisionAt(t, f, v, e);
    }
  }

  /** The columns a head repeats are those of its current revision. */
  lemma HeadRepeatsRevision(policy: ContentPolicy, attempts: seq<Attempt>, f: FactKey)
    requires f in Final(policy, attempts).heads
    ensures var t := Final(policy, attempts);
            var head := t.heads[f];
            && RevisionAt(t, f, head.currentVersion, head.currentRevision)
            && Agrees(head, t.revisions[head.currentRevision])
  {
  }

  // ---- what later steps cannot do ---------------------------------------------------------

  /** u is a state some later steps reach from t. */
  ghost predicate Follows(t: Tables, u: Tables) {
    && (forall r <- t.revisions :: r in u.revisions && u.revisions[r] == t.revisions[r])
    && (forall f <- t.heads :: f in u.heads && (t.heads[f].status == Invalidated ==> u.heads[f] == t.heads[f]))
    && t.relations <= u.relations
    && PromotionsSettle(t, u)
  }

  lemma {:induction false} RunFollows(policy: ContentPolicy, attempts: seq<Attempt>, i: nat, j: nat)
    requires i <= j <= |attempts|
    ensures Follows(StateAt(policy, attempts, i), StateAt(policy, attempts, j))
    decreases j - i
  {
    hide Inv, Open, Attempted;
    if i < j {
      RunFollows(policy, attempts, i, j - 1);
      AttemptGrows(policy, StateAt(policy, attempts, j - 1), attempts[j - 1]);
    }
  }

  /** Once a fact is invalidated its head never moves again and it never gains a revision. Only its last
      revision is an invalidated one. */
  lemma InvalidationIsFinal(policy: ContentPolicy, attempts: seq<Attempt>, i: nat, j: nat, f: FactKey)
    requires i <= j <= |attempts|
    requires f in StateAt(policy, attempts, i).heads && StateAt(policy, attempts, i).heads[f].status == Invalidated
    ensures var t, u := StateAt(policy, attempts, i), StateAt(policy, attempts, j);
            && f in u.heads && u.heads[f] == t.heads[f]
            && (forall v, r :: RevisionAt(u, f, v, r) <==> RevisionAt(t, f, v, r))
            && (forall v, r :: RevisionAt(u, f, v, r) && u.revisions[r].status == Invalidated ==> v == u.heads[f].currentVersion)
  {
    hide Open, Recorded, Paired, HeadsAgree, CreatorsAgree, Relations, Promotions, ApprovalsTaken, PromotedApproved, ContentPinned;
    hide StateAt, PromotionsSettle;
    var t, u := StateAt(policy, attempts, i), StateAt(policy, attempts, j);
    RunFollows(policy, attempts, i, j);
    FinalVersions(t, u, f);
  }

  lemma FinalVersions(t: Tables, u: Tables, f: FactKey)
    requires Follows(t, u) && f in t.heads && f in u.heads && t.heads[f] == u.heads[f]
    requires NoGaps(t) && InRange(u) && OneRevision(u) && LastInvalidated(u)
    ensures forall v, r :: RevisionAt(u, f, v, r) <==> RevisionAt(t, f, v, r)
    ensures forall v, r :: RevisionAt(u, f, v, r) && u.revisions[r].status == Invalidated ==> v == u.heads[f].currentVersion
  {
    hide PromotionsSettle;
    forall v, r | RevisionAt(u, f, v, r) ensures RevisionAt(t, f, v, r) {
      assert HasRevision(t, f, v);
      var s :| RevisionAt(t, f, v, s);
      assert RevisionAt(u, f, v, s);
    }
  }

  /** A settled request keeps its status for good; a request never changes what it is about. */
  lemma RequestsSettleOnce(policy: ContentPolicy, attempts: seq<Attempt>, i: nat, j: nat, q: Uuid)
    requires i <= j <= |attempts| && q in StateAt(policy, attempts, i).promotions
    ensures var p, u := StateAt(policy, attempts, i).promotions[q], StateAt(policy, attempts, j).promotions;
            && q in u
            && u[q].fact == p.fact && u[q].sourceVersion == p.sourceVersion && u[q].requestedBy == p.requestedBy
            && (p.status != Pending ==> u[q] == p)
  {
    hide Inv, Open, StateAt;
    RunFollows(policy, attempts, i, j);
  }

  /** A promoted version repeats the version below it but for the namespace, has exactly one approval and that
      approval is of the version below it; and an approval always has made its version. */
  lemma ApprovalIsPinned(policy: ContentPolicy, attempts: seq<Attempt>, f: FactKey, v: nat, e: Uuid, s: Uuid)
    requires EventAt(Final(policy, attempts), f, v, e) && RevisionAt(Final(policy, attempts), f, v, s)
    ensures var t := Final(policy, attempts);
            (t.events[e].op == Promoted <==> exists q :: ApprovedAt(t, f, v, q))
    ensures var t := Final(policy, attempts);
            forall p, q :: ApprovedAt(t, f, v, p) && ApprovedAt(t, f, v, q) ==> p == q
    ensures var t := Final(policy, attempts);
            t.events[e].op == Promoted ==>
              exists r :: && RevisionAt(t, f, v - 1, r)
                          && t.revisions[s].payload == t.revisions[r].payload.(namespace := SHARED)
                          && t.revisions[r].status == t.revisions[s].status == Active
                          && IsDomainNamespace(t.revisions[r].payload.namespace)
  {
    var t := Final(policy, attempts);
    assert Paired(t) && OneRevision(t) && PromotedApproved(t) && ApprovalsTaken(t) && ContentPinned(t) && NoGaps(t) && InRange(t)
           && PromotionRows(t);
    hide Inv, Open, Final;
    assert e == s;
    if t.events[e].op == Promoted {
      assert HasApproval(t, f, v);
      var q :| ApprovedAt(t, f, v, q);
      assert HasRevision(t, f, v - 1);
      var r :| RevisionAt(t, f, v - 1, r);
      assert t.revisions[r].version + 1 == t.revisions[s].version;
    }
  }

  /** No version rewrites content: it repeats the version below, and only a promotion changes one field, the
      namespace. Nothing ever follows an invalidated version. */
  lemma ContentIsCarriedOver(policy: ContentPolicy, attempts: seq<Attempt>, f: FactKey, v: nat, r: Uuid, s: Uuid, e: Uuid)
    requires var t := Final(policy, attempts);
             RevisionAt(t, f, v, r) && RevisionAt(t, f, v + 1, s) && EventAt(t, f, v + 1, e)
    ensures var t := Final(policy, attempts);
            && Succeeds(t.events[e].op, t.revisions[s], t.revisions[r])
            && (t.revisions[s].status == Invalidated <==> t.events[e].op == WasInvalidated)
  {
    var t := Final(policy, attempts);
    assert OneRevision(t) && Paired(t) && ContentPinned(t);
    hide Inv, Open, Final;
    assert e == s;
  }

  /** At most one request of a fact waits for a decision, and a decision is on record exactly for the decided ones. */
  lemma OnePendingRequest(policy: ContentPolicy, attempts: seq<Attempt>, p: Uuid, q: Uuid)
    requires var t := Final(policy, attempts);
             p in t.promotions && q in t.promotions && t.promotions[p].fact == t.promotions[q].fact
    ensures var t := Final(policy, attempts);
            && (t.promotions[p].status == t.promotions[q].status == Pending ==> p == q)
            && (t.promotions[p].status == Approved <==> p in t.decisions && t.decisions[p].verdict == Approve)
            && (t.promotions[p].status == Rejected <==> p in t.decisions && t.decisions[p].verdict == Reject)
  {
    hide InRange, OneRevision, NoGaps, Paired, HeadsAgree, CreatorsAgree, LastInvalidated, Relations;
  }

  // ---- supersedes -------------------------------------------------------------------------

  ghost predicate Supersedes(t: Tables, newer: FactKey, older: FactKey) {
    exists x <- t.relations :: x.from == newer && x.to == older
  }

  ghost predicate SupersedesChain(t: Tables, chain: seq<FactKey>) {
    |chain| >= 2 && forall i :: 0 <= i < |chain| - 1 ==> Supersedes(t, chain[i], chain[i + 1])
  }

  lemma {:induction false} ChainDescends(t: Tables, chain: seq<FactKey>, r: int, s: int)
    requires OneRevision(t) && Relations(t) && NoGaps(t) && HeadsAgree(t) && SupersedesChain(t, chain)
    requires RevisionAt(t, chain[0], 1, r) && RevisionAt(t, chain[|chain| - 1], 1, s)
    ensures s < r
    decreases |chain|
  {
    assert Supersedes(t, chain[0], chain[1]);
    var x :| x in t.relations && x.from == chain[0] && x.to == chain[1];
    assert RevisionAt(t, chain[0], 1, x.createdRevision);
    if |chain| > 2 {
      HasFirst(t, chain[1]);
      var m :| RevisionAt(t, chain[1], 1, m);
      var rest := chain[1..];
      assert forall i :: 0 <= i < |rest| - 1 ==> Supersedes(t, rest[i], rest[i + 1]) by {
        forall i | 0 <= i < |rest| - 1 ensures Supersedes(t, rest[i], rest[i + 1]) {
          assert Supersedes(t, chain[i + 1], chain[i + 1 + 1]);
        }
      }
      ChainDescends(t, rest, m, s);
    }
  }

  lemma HasFirst(t: Tables, f: FactKey)
    requires NoGaps(t) && HeadsAgree(t) && f in t.heads
    ensures exists r :: RevisionAt(t, f, 1, r)
  {
    assert HasRevision(t, f, 1);
  }

  /** The supersedes relation is a forest: it has no cycle, every fact has at most one superseder, and a
      superseded fact is invalidated. */
  lemma SupersedesIsForest(policy: ContentPolicy, attempts: seq<Attempt>)
    ensures var t := Final(policy, attempts);
            && (forall chain :: SupersedesChain(t, chain) ==> chain[0] != chain[|chain| - 1])
            && (forall a, b, c :: Supersedes(t, a, c) && Supersedes(t, b, c) ==> a == b)
            && (forall a, b :: Supersedes(t, a, b) ==> b in t.heads && t.heads[b].status == Invalidated && a.org == b.org)
  {
    var t := Final(policy, attempts);
    assert OneRevision(t) && Relations(t) && NoGaps(t) && HeadsAgree(t);
    forall chain | SupersedesChain(t, chain) ensures chain[0] != chain[|chain| - 1] {
      assert Supersedes(t, chain[0], chain[1]);
      var x :| x in t.relations && x.from == chain[0] && x.to == chain[1];
      if chain[0] == chain[|chain| - 1] {
        ChainDescends(t, chain, x.createdRevision, x.createdRevision);
      }
    }
    RelationsStayInOrg(policy, attempts, |attempts|);
    hide Inv, Open, Final;
  }

  lemma {:induction false} RelationsStayInOrg(policy: ContentPolicy, attempts: seq<Attempt>, n: nat)
    requires n <= |attempts|
    ensures forall x <- StateAt(policy, attempts, n).relations :: x.from.org == x.to.org
  {
    hide Inv, Open, Attempted;
    if n > 0 {
      RelationsStayInOrg(policy, attempts, n - 1);
      AttemptGrows(policy, StateAt(policy, attempts, n - 1), attempts[n - 1]);
    }
  }
}
