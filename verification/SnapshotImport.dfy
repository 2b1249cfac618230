/** The import of one Git snapshot into an organization, as a fixed sequence of repository calls. */
module SnapshotImport {
  import opened Domain
  import opened Ordering
  import opened Tables
  import opened StoreInvariant
  import opened StoreRuns
  import opened StoreEffects
  import opened ImportPlan

  /** A post of the snapshot; a payload that does not parse is None. An absent reason is null or missing, an absent
      status only missing. */
  datatype Post = Post(payload: Option<Payload>, status: Raw, supersededBy: Raw, reason: Raw)

  /** What the clock shows at each call of an import: any times, in any order. */
  datatype Clock = Clock(created: string -> Time, ended: string -> Time)

  /** posts lists the ids in the order of the snapshot's tree. */
  datatype Import = Import(org: OrgId, commit: string, posts: seq<string>, snapshot: map<string, Post>, clock: Clock)

  ghost predicate WellFormed(im: Import) {
    Distinct(im.posts) && Elements(im.posts) == im.snapshot.Keys
  }

  function LinksOf(im: Import): Links {
    map id <- im.snapshot :: im.snapshot[id].supersededBy
  }

  const IMPORT_ROLES: set<string> := {"writer", "philosophy:write", "human-authored:write", "shared:write"}

  function Importer(im: Import): Actor {
    Actor(im.org, "git-shadow-import:" + (if |im.commit| <= 12 then im.commit else im.commit[..12]), IMPORT_ROLES)
  }

  function KeyPrefix(commit: string): string {
    "git-shadow:" + commit + ":"
  }

  function CreateKey(commit: string, id: string): string {
    KeyPrefix(commit) + id + ":create"
  }

  function InvalidateKey(commit: string, id: string): string {
    KeyPrefix(commit) + id + ":invalidate"
  }

  predicate ValidId(id: string) {
    1 <= |id| <= 64
  }

  /** The create of one post, or the error raised while its command is built. */
  function CreateCall(im: Import, id: string, olds: seq<string>): Result<Attempt>
    requires id in im.snapshot
  {
    match im.snapshot[id].payload
    case None => Err(ValueError)
    case Some(payload) =>
      if !ValidId(id) then Err(ValidationError)
      else
        Ok(Create(Importer(im), CreateFact(id, payload, "shadow import from Git " + im.commit, olds),
                  map older | older in olds :: 1, CreateKey(im.commit, id), im.clock.created(id)))
  }

  function StandaloneReason(reason: Raw): string {
    if !Truthy(reason) then "invalidated in Git snapshot"
    else match reason
         case Text(text) => text
         case Other(_, shown, _) => shown
         case Absent => ""
  }

  predicate InvalidatedAlone(post: Post) {
    post.status == Text("invalidated") && !Truthy(post.supersededBy)
  }

  function InvalidateCall(im: Import, id: string): Result<Attempt>
    requires id in im.snapshot
  {
    var reason := StandaloneReason(im.snapshot[id].reason);
    if !ValidId(id) || |reason| < 5 then Err(ValidationError)
    else Ok(Invalidate(Importer(im), InvalidateFact(id, reason), 1, InvalidateKey(im.commit, id), im.clock.ended(id)))
  }

  /** Runs the calls until one cannot be built or is refused. */
  function Calls(policy: ContentPolicy, t: Tables, calls: seq<Result<Attempt>>): (Tables, Option<Error>)
    requires Inv(t) && Open(t)
    decreases |calls|
  {
    if calls == [] then (t, None)
    else
      match calls[0]
      case Err(e) => (t, Some(e))
      case Ok(a) =>
        AttemptKeepsInv(policy, t, a);
        var (u, r) := Attempted(policy, t, a);
        if r.Err? then (u, Some(r.error)) else Calls(policy, u, calls[1..])
  }

  ghost function CreateCalls(im: Import, order: seq<string>): seq<Result<Attempt>>
    requires forall id <- order :: id in im.snapshot
  {
    seq(|order|, i requires 0 <= i < |order| => CreateCall(im, order[i], ReplacedIn(LinksOf(im), order[i])))
  }

  /** What the closing loop does at one post: it reads the status of every post. */
  function EndCalls(im: Import, id: string): seq<Result<Attempt>>
    requires id in im.snapshot
  {
    if im.snapshot[id].status.Absent? then [Err(KeyError)]
    else if InvalidatedAlone(im.snapshot[id]) then [InvalidateCall(im, id)] else []
  }

  ghost function InvalidateCalls(im: Import, posts: seq<string>): seq<Result<Attempt>>
    requires forall id <- posts :: id in im.snapshot
  {
    if posts == [] then []
    else
      EndCalls(im, posts[0]) + InvalidateCalls(im, posts[1..])
  }

  ghost function ImportCalls(im: Import, order: seq<string>): seq<Result<Attempt>>
    requires forall id <- order :: id in im.snapshot
    requires forall id <- im.posts :: id in im.snapshot
  {
    CreateCalls(im, order) + InvalidateCalls(im, im.posts)
  }

  // ---- keys -------------------------------------------------------------------------------

  lemma KeysTellApart(commit: string, a: string, b: string)
    ensures CreateKey(commit, a) == CreateKey(commit, b) ==> a == b
    ensures InvalidateKey(commit, a) == InvalidateKey(commit, b) ==> a == b
    ensures CreateKey(commit, a) != InvalidateKey(commit, b)
  {
    var p := KeyPrefix(commit);
    assert CreateKey(commit, a)[|p|..][..|a|] == a && CreateKey(commit, b)[|p|..][..|b|] == b;
    assert InvalidateKey(commit, a)[|p|..][..|a|] == a && InvalidateKey(commit, b)[|p|..][..|b|] == b;
    var x, y := CreateKey(commit, a), InvalidateKey(commit, b);
    assert x[|x| - 4] == 'e' && y[|y| - 4] == 'd';
  }

  // ---- what the calls leave ---------------------------------------------------------------

  /** f is stored at this version with this content. */
  ghost predicate Holds(t: Tables, f: FactKey, version: nat, status: Status, payload: Payload, reason: Option<string>) {
    && f in t.heads && t.heads[f].currentVersion == version && t.heads[f].status == status
    && t.heads[f].currentRevision in t.revisions
    && t.revisions[t.heads[f].currentRevision].payload == payload
    && t.revisions[t.heads[f].currentRevision].invalidationReason == reason
  }

  /** The row of one post, once the facts in done are created and those in ended invalidated. */
  ghost predicate HoldsPost(im: Import, t: Tables, id: string, done: set<string>, ended: set<string>)
    requires id in im.snapshot && im.snapshot[id].payload.Some?
  {
    var post, f := im.snapshot[id], FactKey(im.org, id);
    if post.supersededBy.Text? && post.supersededBy.text in done then
      Holds(t, f, 2, Invalidated, post.payload.value, Some(ReplacedBy(post.supersededBy.text)))
    else if id in ended then
      Holds(t, f, 2, Invalidated, post.payload.value, Some(StandaloneReason(post.reason)))
    else
      Holds(t, f, 1, Active, post.payload.value, None)
  }

  ghost predicate Importable(policy: ContentPolicy, im: Import) {
    && WellFormed(im) && WellLinked(LinksOf(im))
    && (forall id <- im.snapshot ::
          && ValidId(id) && im.snapshot[id].payload.Some? && !im.snapshot[id].status.Absent?
          && CreateAllowed(policy, Importer(im), CreateFact(id, im.snapshot[id].payload.value, "shadow import from Git " + im.commit, ReplacedIn(LinksOf(im), id)))
          && (InvalidatedAlone(im.snapshot[id]) ==> |StandaloneReason(im.snapshot[id].reason)| >= 5))
  }

  ghost predicate RecordsCall(im: Import, t: Tables, key: string, call: Result<Attempt>) {
    var k := IdempotencyKey(im.org, key);
    && call.Ok? && k in t.idempotency && t.idempotency[k].request == RequestOf(call.value)
    && t.idempotency[k].response.Some? && t.idempotency[k].response.value.Written?
  }

  ghost predicate FactsDone(im: Import, t: Tables, done: set<string>, ended: set<string>)
    requires forall id <- done :: id in im.snapshot && im.snapshot[id].payload.Some?
  {
    && (forall f <- t.heads :: f.org == im.org ==> f.id in done)
    && (forall id <- done :: HoldsPost(im, t, id, done, ended))
  }

  ghost predicate RelationsDone(im: Import, t: Tables, done: set<string>) {
    && (forall x <- t.relations :: x.from.org == im.org ==> x.from.id in done && x.to.org == im.org && Replaces(LinksOf(im), x.from.id, x.to.id))
    && (forall newer, older :: newer in done && Replaces(LinksOf(im), newer, older) ==>
                                 exists x <- t.relations :: x.from == FactKey(im.org, newer) && x.to == FactKey(im.org, older))
  }

  ghost predicate KeysDone(im: Import, t: Tables, done: set<string>, ended: set<string>)
    requires forall id <- done + ended :: id in im.snapshot
  {
    && (forall id <- done :: RecordsCall(im, t, CreateKey(im.commit, id), CreateCall(im, id, ReplacedIn(LinksOf(im), id))))
    && (forall id <- ended :: RecordsCall(im, t, InvalidateKey(im.commit, id), InvalidateCall(im, id)))
    && (forall id :: id !in done ==> IdempotencyKey(im.org, CreateKey(im.commit, id)) !in t.idempotency)
    && (forall id :: id !in ended ==> IdempotencyKey(im.org, InvalidateKey(im.commit, id)) !in t.idempotency)
  }

  /** The organization holds exactly the facts in done, each created after all it replaces; those in ended are
      invalidated on their own. */
  ghost predicate Imported(policy: ContentPolicy, im: Import, t: Tables, done: set<string>, ended: set<string>) {
    && Importable(policy, im) && Inv(t) && Open(t)
    && done <= im.snapshot.Keys && ended <= done && (forall id <- done :: Olds(LinksOf(im), id) <= done)
    && FactsDone(im, t, done, ended) && RelationsDone(im, t, done) && KeysDone(im, t, done, ended)
  }

  lemma OldsAreListed(policy: ContentPolicy, im: Import, id: string)
    requires Importable(policy, im) && id in im.snapshot
    ensures var olds := ReplacedIn(LinksOf(im), id);
            && Distinct(olds) && (forall older :: older in olds <==> older in Olds(LinksOf(im), id))
            && Elements(olds) == Olds(LinksOf(im), id)
  {
    var olds := ReplacedIn(LinksOf(im), id);
    AscendingIsDistinct(olds);
    forall older ensures older in olds <==> older in Olds(LinksOf(im), id) {
      assert older in olds <==> older in Elements(olds);
    }
  }

  lemma NextIsCreatable(policy: ContentPolicy, im: Import, t: Tables, done: set<string>, id: string)
    requires Imported(policy, im, t, done, {}) && id in im.snapshot && id !in done && Olds(LinksOf(im), id) <= done
    ensures var call := CreateCall(im, id, ReplacedIn(LinksOf(im), id));
            && call.Ok? && Admitted(policy, call.value) && KeyOf(call.value) !in t.idempotency
            && Creatable(t, Importer(im), call.value.create, call.value.superseded)
  {
    hide Inv, Open, RelationsDone, FactsDone, HoldsPost, ReplacedIn, CreateAllowed, Olds, Holds, WellFormed, WellLinked;
    OldsAreListed(policy, im, id);
    OldsAreActive(policy, im, t, done, id);
  }

  lemma OldsAreActive(policy: ContentPolicy, im: Import, t: Tables, done: set<string>, id: string)
    requires Imported(policy, im, t, done, {}) && id in im.snapshot && id !in done && Olds(LinksOf(im), id) <= done
    ensures FactKey(im.org, id) !in t.heads
    ensures forall older <- Olds(LinksOf(im), id) ::
              var f := FactKey(im.org, older);
              f in t.heads && t.heads[f].status == Active && t.heads[f].currentVersion == 1
  {
    hide Inv, Open, RelationsDone, KeysDone, ReplacedIn, CreateAllowed;
    forall older <- Olds(LinksOf(im), id)
      ensures Holds(t, FactKey(im.org, older), 1, Active, im.snapshot[older].payload.value, None) {
      assert HoldsPost(im, t, older, done, {});
    }
    hide HoldsPost, Importable;
  }

  lemma CreateKeepsFacts(policy: ContentPolicy, im: Import, t: Tables, u: Tables, done: set<string>, id: string)
    requires Imported(policy, im, t, done, {}) && id in im.snapshot && id !in done && Olds(LinksOf(im), id) <= done
    requires var call := CreateCall(im, id, ReplacedIn(LinksOf(im), id));
             call.Ok? && CreatedFact(t, u, Importer(im), call.value.create, im.clock.created(id))
    ensures FactsDone(im, u, done + {id}, {})
  {
    hide Inv, Open, RelationsDone, KeysDone, ReplacedIn, InvalidatedOnce, CreateAllowed, WellFormed, WellLinked;
    OldsAreListed(policy, im, id);
    forall other <- done + {id} ensures HoldsPost(im, u, other, done + {id}, {}) {
      if other == id {
        NotYetReplaced(policy, im, done, id);
      } else {
        assert HoldsPost(im, t, other, done, {});
        if other in Olds(LinksOf(im), id) {
          assert InvalidatedOnce(t, u, Importer(im), FactKey(im.org, other), ReplacedBy(id), im.clock.created(id));
          ReplacesPost(im, t, u, other, done, id);
        } else {
          assert u.heads[FactKey(im.org, other)] == t.heads[FactKey(im.org, other)];
        }
      }
    }
  }

  lemma ReplacesPost(im: Import, t: Tables, u: Tables, other: string, done: set<string>, id: string)
    requires other in im.snapshot && im.snapshot[other].payload.Some? && id !in done
    requires im.snapshot[other].supersededBy == Text(id) && HoldsPost(im, t, other, done, {})
    requires InvalidatedOnce(t, u, Importer(im), FactKey(im.org, other), ReplacedBy(id), im.clock.created(id))
    ensures HoldsPost(im, u, other, done + {id}, {})
  {
  }

  lemma NotYetReplaced(policy: ContentPolicy, im: Import, done: set<string>, id: string)
    requires Importable(policy, im) && id in im.snapshot && id !in done
    requires forall d <- done :: Olds(LinksOf(im), d) <= done
    ensures var next := im.snapshot[id].supersededBy; !(next.Text? && next.text in done + {id})
  {
    var next := im.snapshot[id].supersededBy;
    assert id in LinksOf(im) && LinksOf(im)[id] == next && LinkError(LinksOf(im), id).None?;
    hide Importable;
    if next.Text? {
      assert id in Olds(LinksOf(im), next.text);
    }
  }

  lemma CreatedRelations(t: Tables, u: Tables, actor: Actor, command: CreateFact, now: Time)
    requires CreatedFact(t, u, actor, command, now)
    ensures u.relations == t.relations + set older <- command.supersedes :: Relation(FactKey(actor.org, command.factId), FactKey(actor.org, older), t.uuids)
  {
  }

  lemma CreateKeepsRelations(policy: ContentPolicy, im: Import, t: Tables, u: Tables, done: set<string>, id: string)
    requires Importable(policy, im) && RelationsDone(im, t, done) && id in im.snapshot
    requires var call := CreateCall(im, id, ReplacedIn(LinksOf(im), id));
             call.Ok? && CreatedFact(t, u, Importer(im), call.value.create, im.clock.created(id))
    ensures RelationsDone(im, u, done + {id})
  {
    OldsAreListed(policy, im, id);
    CreatedRelations(t, u, Importer(im), CreateCall(im, id, ReplacedIn(LinksOf(im), id)).value.create, im.clock.created(id));
    hide ReplacedIn, CreatedFact, Importable, RelationsDone, LinksOf;
    AddRelations(im, t, u, done, id, ReplacedIn(LinksOf(im), id));
  }

  lemma AddRelations(im: Import, t: Tables, u: Tables, done: set<string>, id: string, olds: seq<string>)
    requires RelationsDone(im, t, done) && forall older :: older in olds <==> Replaces(LinksOf(im), id, older)
    requires u.relations == t.relations + set older <- olds :: Relation(FactKey(im.org, id), FactKey(im.org, older), t.uuids)
    ensures RelationsDone(im, u, done + {id})
  {
    hide LinksOf, Replaces;
    forall newer, older | newer in done + {id} && Replaces(LinksOf(im), newer, older)
      ensures exists x <- u.relations :: x.from == FactKey(im.org, newer) && x.to == FactKey(im.org, older)
    {
      if newer in done {
        var x :| x in t.relations && x.from == FactKey(im.org, newer) && x.to == FactKey(im.org, older);
        assert x in u.relations;
      } else {
        assert Relation(FactKey(im.org, id), FactKey(im.org, older), t.uuids) in u.relations;
      }
    }
  }

  lemma CreateKeepsKeys(im: Import, t: Tables, u: Tables, done: set<string>, id: string, response: Response)
    requires done <= im.snapshot.Keys && KeysDone(im, t, done, {}) && id in im.snapshot
    requires var call := CreateCall(im, id, ReplacedIn(LinksOf(im), id));
             call.Ok? && RecordedOver(t, u, call.value, response) && response.Written?
    ensures KeysDone(im, u, done + {id}, {})
  {
    hide CreateKey, InvalidateKey, ReplacedIn;
    forall other ensures CreateKey(im.commit, other) == CreateKey(im.commit, id) ==> other == id {
      KeysTellApart(im.commit, other, id);
    }
    forall other ensures CreateKey(im.commit, id) != InvalidateKey(im.commit, other) {
      KeysTellApart(im.commit, id, other);
    }
  }

  lemma CreateStep(policy: ContentPolicy, im: Import, t: Tables, done: set<string>, id: string)
    requires Imported(policy, im, t, done, {}) && id in im.snapshot && id !in done && Olds(LinksOf(im), id) <= done
    ensures var call := CreateCall(im, id, ReplacedIn(LinksOf(im), id));
            && call.Ok? && Attempted(policy, t, call.value).1.Ok?
            && Imported(policy, im, Attempted(policy, t, call.value).0, done + {id}, {})
  {
    hide Inv, Open, Attempted, Admitted, FactsDone, RelationsDone, KeysDone, ReplacedIn, Creatable, CreatedFact, Importable, Olds;
    NextIsCreatable(policy, im, t, done, id);
    var a := CreateCall(im, id, ReplacedIn(LinksOf(im), id)).value;
    FreshCreate(policy, t, a);
    AttemptKeepsInv(policy, t, a);
    var u := Attempted(policy, t, a).0;
    var v := u.(idempotency := t.idempotency);
    CreateKeepsFacts(policy, im, t, v, done, id);
    CreateKeepsRelations(policy, im, t, v, done, id);
    CreateKeepsKeys(im, t, u, done, id, Attempted(policy, t, a).1.value);
    ImportIgnoresKeys(policy, im, v, u, done + {id}, {});
  }

  lemma ImportIgnoresKeys(policy: ContentPolicy, im: Import, v: Tables, u: Tables, done: set<string>, ended: set<string>)
    requires Importable(policy, im) && done <= im.snapshot.Keys
    requires v == u.(idempotency := v.idempotency) && FactsDone(im, v, done, ended) && RelationsDone(im, v, done)
    ensures FactsDone(im, u, done, ended) && RelationsDone(im, u, done)
  {
    forall id <- done ensures HoldsPost(im, u, id, done, ended) {
      assert HoldsPost(im, v, id, done, ended);
    }
  }

  lemma EndKeepsFacts(policy: ContentPolicy, im: Import, t: Tables, u: Tables, ended: set<string>, id: string)
    requires Imported(policy, im, t, im.snapshot.Keys, ended) && id in im.snapshot && InvalidatedAlone(im.snapshot[id])
    requires var f := FactKey(im.org, id);
             && InvalidatedOnce(t, u, Importer(im), f, StandaloneReason(im.snapshot[id].reason), im.clock.ended(id))
             && f in u.heads && u.heads == t.heads[f := u.heads[f]]
             && (forall r <- t.revisions :: r in u.revisions && u.revisions[r] == t.revisions[r])
    requires id !in ended
    ensures FactsDone(im, u, im.snapshot.Keys, ended + {id})
  {
    hide Inv, Open, RelationsDone, KeysDone, HoldsPost, InvalidatedOnce, Olds, InvalidatedAlone;
    forall other <- im.snapshot ensures HoldsPost(im, u, other, im.snapshot.Keys, ended + {id}) {
      if other == id {
        EndsPost(policy, im, t, u, ended, id);
      } else {
        KeepsPost(im, t, u, other, im.snapshot.Keys, ended, id);
      }
    }
  }

  lemma EndsPost(policy: ContentPolicy, im: Import, t: Tables, u: Tables, ended: set<string>, id: string)
    requires Importable(policy, im) && id in im.snapshot && InvalidatedAlone(im.snapshot[id]) && id !in ended
    requires HoldsPost(im, t, id, im.snapshot.Keys, ended)
    requires InvalidatedOnce(t, u, Importer(im), FactKey(im.org, id), StandaloneReason(im.snapshot[id].reason), im.clock.ended(id))
    ensures HoldsPost(im, u, id, im.snapshot.Keys, ended + {id})
  {
    AloneIsUnreplaced(policy, im, id);
    hide Importable;
  }

  lemma KeepsPost(im: Import, t: Tables, u: Tables, other: string, done: set<string>, ended: set<string>, id: string)
    requires other in im.snapshot && im.snapshot[other].payload.Some? && other != id
    requires HoldsPost(im, t, other, done, ended)
    requires FactKey(im.org, id) in u.heads && u.heads == t.heads[FactKey(im.org, id) := u.heads[FactKey(im.org, id)]]
    requires forall r <- t.revisions :: r in u.revisions && u.revisions[r] == t.revisions[r]
    ensures HoldsPost(im, u, other, done, ended + {id})
  {
  }

  lemma AloneIsUnreplaced(policy: ContentPolicy, im: Import, id: string)
    requires Importable(policy, im) && id in im.snapshot && InvalidatedAlone(im.snapshot[id])
    ensures im.snapshot[id].supersededBy.Absent? || im.snapshot[id].supersededBy.Other?
  {
    assert LinkError(LinksOf(im), id).None?;
  }

  lemma EndKeepsKeys(im: Import, t: Tables, u: Tables, done: set<string>, ended: set<string>, id: string, response: Response)
    requires done <= im.snapshot.Keys && ended <= done && KeysDone(im, t, done, ended) && id in done
    requires var call := InvalidateCall(im, id);
             call.Ok? && RecordedOver(t, u, call.value, response) && response.Written?
    ensures KeysDone(im, u, done, ended + {id})
  {
    hide CreateKey, InvalidateKey, ReplacedIn;
    forall other ensures InvalidateKey(im.commit, other) == InvalidateKey(im.commit, id) ==> other == id {
      KeysTellApart(im.commit, other, id);
    }
    forall other ensures CreateKey(im.commit, other) != InvalidateKey(im.commit, id) {
      KeysTellApart(im.commit, other, id);
    }
  }

  lemma AloneIsCurrent(policy: ContentPolicy, im: Import, t: Tables, ended: set<string>, id: string)
    requires Imported(policy, im, t, im.snapshot.Keys, ended) && id in im.snapshot && InvalidatedAlone(im.snapshot[id]) && id !in ended
    ensures var call := InvalidateCall(im, id);
            && call.Ok? && Admitted(policy, call.value) && KeyOf(call.value) !in t.idempotency
            && var f := FactKey(im.org, id); f in t.heads && t.heads[f].status == Active && t.heads[f].currentVersion == 1
  {
    hide Inv, Open, RelationsDone;
    AloneIsUnreplaced(policy, im, id);
    assert HoldsPost(im, t, id, im.snapshot.Keys, ended);
  }

  lemma EndStep(policy: ContentPolicy, im: Import, t: Tables, ended: set<string>, id: string)
    requires Imported(policy, im, t, im.snapshot.Keys, ended) && id in im.snapshot && InvalidatedAlone(im.snapshot[id]) && id !in ended
    ensures var call := InvalidateCall(im, id);
            && call.Ok? && Attempted(policy, t, call.value).1.Ok?
            && Imported(policy, im, Attempted(policy, t, call.value).0, im.snapshot.Keys, ended + {id})
  {
    hide Inv, Open, Attempted, Admitted, FactsDone, RelationsDone, KeysDone, Importable, InvalidatedAlone, InvalidatedOnce, Olds;
    AloneIsCurrent(policy, im, t, ended, id);
    var a := InvalidateCall(im, id).value;
    FreshInvalidate(policy, t, a);
    AttemptKeepsInv(policy, t, a);
    var u := Attempted(policy, t, a).0;
    EndKeepsFacts(policy, im, t, u, ended, id);
    EndKeepsKeys(im, t, u, im.snapshot.Keys, ended, id, Attempted(policy, t, a).1.value);
    SameRelationsDone(im, t, u, im.snapshot.Keys);
  }

  lemma SameRelationsDone(im: Import, t: Tables, u: Tables, done: set<string>)
    requires RelationsDone(im, t, done) && u.relations == t.relations
    ensures RelationsDone(im, u, done)
  {
  }

  // ---- all calls --------------------------------------------------------------------------

  /** No call is refused, and the tables end as u. */
  ghost predicate RunsTo(policy: ContentPolicy, t: Tables, calls: seq<Result<Attempt>>, u: Tables) {
    Inv(t) && Open(t) && Calls(policy, t, calls) == (u, None)
  }

  lemma {:induction false} RunsOn(policy: ContentPolicy, t: Tables, xs: seq<Result<Attempt>>, u: Tables, ys: seq<Result<Attempt>>, v: Tables)
    requires RunsTo(policy, t, xs, u) && RunsTo(policy, u, ys, v)
    ensures RunsTo(policy, t, xs + ys, v)
    decreases |xs|
  {
    hide Inv, Open, Attempted;
    if xs == [] {
      assert xs + ys == ys;
    } else {
      assert (xs + ys)[1..] == xs[1..] + ys;
      RunsOn(policy, AfterFirst(policy, t, xs), xs[1..], u, ys, v);
    }
  }

  ghost function AfterFirst(policy: ContentPolicy, t: Tables, calls: seq<Result<Attempt>>): (u: Tables)
    requires Inv(t) && Open(t) && calls != [] && calls[0].Ok?
    ensures Inv(u) && Open(u)
  {
    AttemptKeepsInv(policy, t, calls[0].value);
    Attempted(policy, t, calls[0].value).0
  }

  lemma {:induction false} CreatesFrom(policy: ContentPolicy, im: Import, t: Tables, order: seq<string>, n: nat) returns (u: Tables)
    requires IsOrder(LinksOf(im), order) && n <= |order|
    requires forall id <- order :: id in im.snapshot
    requires Imported(policy, im, t, Elements(order[..n]), {})
    ensures RunsTo(policy, t, CreateCalls(im, order)[n..], u) && Imported(policy, im, u, im.snapshot.Keys, {})
    decreases |order| - n
  {
    hide Inv, Open, Attempted, FactsDone, RelationsDone, KeysDone, Importable, IsOrder, CreateCall, ReplacedIn, Olds;
    var calls := CreateCalls(im, order)[n..];
    if n == |order| {
      u := t;
      assert order[..n] == order;
      OrderHasAll(im, order);
    } else {
      var id := order[n];
      OldsComeFirst(LinksOf(im), order, n);
      CreateStep(policy, im, t, Elements(order[..n]), id);
      assert Elements(order[..n + 1]) == Elements(order[..n]) + {id};
      assert calls[1..] == CreateCalls(im, order)[n + 1..];
      u := CreatesFrom(policy, im, Attempted(policy, t, calls[0].value).0, order, n + 1);
    }
  }

  lemma OrderHasAll(im: Import, order: seq<string>)
    requires IsOrder(LinksOf(im), order)
    ensures Elements(order) == im.snapshot.Keys
  {
  }

  lemma OldsComeFirst(links: Links, order: seq<string>, n: nat)
    requires IsOrder(links, order) && n < |order|
    ensures order[n] !in Elements(order[..n]) && Olds(links, order[n]) <= Elements(order[..n])
  {
    forall older <- Olds(links, order[n]) ensures older in order[..n] {
      assert older in Elements(order);
      var i := IndexOf(order, older);
      assert Replaces(links, order[n], order[i]);
    }
  }

  ghost function AloneIn(im: Import, posts: seq<string>): set<string>
    requires forall id <- posts :: id in im.snapshot
  {
    set id <- posts | InvalidatedAlone(im.snapshot[id])
  }

  lemma NotYetEnded(policy: ContentPolicy, im: Import, t: Tables, n: nat)
    requires n <= |im.posts| && forall id <- im.posts :: id in im.snapshot
    requires Imported(policy, im, t, im.snapshot.Keys, AloneIn(im, im.posts[..n]))
    ensures n < |im.posts| ==> im.posts[n] !in AloneIn(im, im.posts[..n])
  {
    hide CreateAllowed, WellLinked, InvalidatedAlone, Inv, Open, FactsDone, RelationsDone, KeysDone, Olds;
  }

  lemma {:induction false} EndsFrom(policy: ContentPolicy, im: Import, t: Tables, n: nat) returns (u: Tables)
    requires n <= |im.posts| && forall id <- im.posts :: id in im.snapshot
    requires Imported(policy, im, t, im.snapshot.Keys, AloneIn(im, im.posts[..n]))
    ensures RunsTo(policy, t, InvalidateCalls(im, im.posts[n..]), u)
    ensures Imported(policy, im, u, im.snapshot.Keys, AloneIn(im, im.posts))
    decreases |im.posts| - n
  {
    hide Inv, Open, Imported, AloneIn, InvalidateCalls, InvalidateCall, InvalidatedAlone, Attempted, RunsTo;
    if n == |im.posts| {
      u := t;
      assert im.posts[..n] == im.posts && im.posts[n..] == [];
      IsSound(policy, im, t, im.snapshot.Keys, AloneIn(im, im.posts));
      NoCalls(policy, im, t);
    } else {
      var id := im.posts[n];
      AloneMore(im, n);
      StatusIsThere(policy, im, t, n);
      CallsMore(im, n);
      var rest := InvalidateCalls(im, im.posts[n + 1..]);
      if InvalidatedAlone(im.snapshot[id]) {
        NotYetEnded(policy, im, t, n);
        EndStep(policy, im, t, AloneIn(im, im.posts[..n]), id);
        IsSound(policy, im, t, im.snapshot.Keys, AloneIn(im, im.posts[..n]));
        u := EndsFrom(policy, im, Attempted(policy, t, InvalidateCall(im, id).value).0, n + 1);
        FirstRuns(policy, t, InvalidateCall(im, id), rest, u);
      } else {
        u := EndsFrom(policy, im, t, n + 1);
      }
    }
  }

  lemma IsSound(policy: ContentPolicy, im: Import, t: Tables, done: set<string>, ended: set<string>)
    requires Imported(policy, im, t, done, ended)
    ensures Inv(t) && Open(t)
  {
  }

  lemma StatusIsThere(policy: ContentPolicy, im: Import, t: Tables, n: nat)
    requires n < |im.posts| && forall id <- im.posts :: id in im.snapshot
    requires Imported(policy, im, t, im.snapshot.Keys, AloneIn(im, im.posts[..n]))
    ensures !im.snapshot[im.posts[n]].status.Absent?
  {
    hide CreateAllowed, WellLinked, InvalidatedAlone, Inv, Open, FactsDone, RelationsDone, KeysDone, Olds, AloneIn;
  }

  lemma NoCalls(policy: ContentPolicy, im: Import, t: Tables)
    requires Inv(t) && Open(t)
    ensures RunsTo(policy, t, InvalidateCalls(im, []), t)
  {
  }

  lemma AloneMore(im: Import, n: nat)
    requires n < |im.posts| && forall id <- im.posts :: id in im.snapshot
    ensures AloneIn(im, im.posts[..n + 1]) ==
            if InvalidatedAlone(im.snapshot[im.posts[n]]) then AloneIn(im, im.posts[..n]) + {im.posts[n]} else AloneIn(im, im.posts[..n])
  {
    hide InvalidatedAlone;
    assert im.posts[..n + 1] == im.posts[..n] + [im.posts[n]];
  }

  lemma CallsMore(im: Import, n: nat)
    requires n < |im.posts| && (forall id <- im.posts :: id in im.snapshot) && !im.snapshot[im.posts[n]].status.Absent?
    ensures InvalidateCalls(im, im.posts[n..]) ==
            if InvalidatedAlone(im.snapshot[im.posts[n]])
            then [InvalidateCall(im, im.posts[n])] + InvalidateCalls(im, im.posts[n + 1..]) else InvalidateCalls(im, im.posts[n + 1..])
  {
    hide InvalidatedAlone, InvalidateCall;
    assert im.posts[n..][1..] == im.posts[n + 1..];
  }

  lemma FirstRuns(policy: ContentPolicy, t: Tables, call: Result<Attempt>, rest: seq<Result<Attempt>>, u: Tables)
    requires Inv(t) && Open(t) && call.Ok? && Attempted(policy, t, call.value).1.Ok?
    requires RunsTo(policy, Attempted(policy, t, call.value).0, rest, u)
    ensures RunsTo(policy, t, [call] + rest, u)
  {
    hide Inv, Open, Attempted;
    assert ([call] + rest)[1..] == rest;
  }

  // ---- end to end -------------------------------------------------------------------------

  ghost predicate NewOrganization(t: Tables, org: OrgId) {
    && (forall f <- t.heads :: f.org != org)
    && (forall k <- t.idempotency :: k.org != org)
  }

  /** The ids a fact replaces, as its history lists them. */
  ghost function SupersedesOf(t: Tables, f: FactKey): seq<string> {
    Sorted(set x <- t.relations | x.from == f :: x.to.id)
  }

  lemma NothingImported(policy: ContentPolicy, im: Import, t: Tables)
    requires Importable(policy, im) && Inv(t) && Open(t) && NewOrganization(t, im.org)
    ensures Imported(policy, im, t, {}, {})
  {
    assert Relations(t);
    hide Inv, Open, Importable;
  }

  lemma SupersedesMatch(policy: ContentPolicy, im: Import, u: Tables, id: string)
    requires Importable(policy, im) && RelationsDone(im, u, im.snapshot.Keys) && id in im.snapshot
    ensures SupersedesOf(u, FactKey(im.org, id)) == ReplacedIn(LinksOf(im), id)
  {
    var f := FactKey(im.org, id);
    var targets := set x <- u.relations | x.from == f :: x.to.id;
    forall older ensures older in targets <==> older in Olds(LinksOf(im), id) {
      if older in Olds(LinksOf(im), id) {
        assert Replaces(LinksOf(im), id, older);
        var x :| x in u.relations && x.from == f && x.to == FactKey(im.org, older);
        assert x.to.id in targets;
      }
    }
    assert targets == Olds(LinksOf(im), id);
  }

  /** Everything of the snapshot is stored, in the state its links and its status ask for. */
  ghost predicate Complete(im: Import, u: Tables) {
    && (forall id <- im.posts :: id in im.snapshot && im.snapshot[id].payload.Some?)
    && (forall f <- u.heads :: f.org == im.org ==> f.id in im.snapshot)
    && (forall id <- im.snapshot :: im.snapshot[id].payload.Some? && HoldsPost(im, u, id, im.snapshot.Keys, AloneIn(im, im.posts)))
    && (forall id <- im.snapshot :: SupersedesOf(u, FactKey(im.org, id)) == ReplacedIn(LinksOf(im), id))
  }

  lemma PostsAreKeys(im: Import)
    requires WellFormed(im)
    ensures forall id <- im.posts :: id in im.snapshot
    ensures forall id <- im.snapshot :: id in im.posts
  {
    forall id <- im.posts ensures id in im.snapshot {
      assert id in Elements(im.posts);
    }
    forall id <- im.snapshot ensures id in im.posts {
      assert id in Elements(im.posts);
    }
  }

  lemma {:induction false} CallsGrow(policy: ContentPolicy, t: Tables, calls: seq<Result<Attempt>>, u: Tables, org: OrgId)
    requires RunsTo(policy, t, calls, u) && forall c <- calls :: c.Ok? ==> c.value.actor.org == org
    ensures Inv(u) && Open(u) && Grows(t, u, org) && IdempotencyKept(t, u)
    decreases |calls|
  {
    hide Inv, Open, Attempted, Grows;
    if calls == [] {
      GrowsReflexive(t, org);
    } else {
      var m := AfterFirst(policy, t, calls);
      AttemptGrows(policy, t, calls[0].value);
      CallsGrow(policy, m, calls[1..], u, org);
      GrowsTransitive(t, m, u, org);
    }
  }

  lemma {:induction false} EndsOfImporter(im: Import, posts: seq<string>)
    requires forall id <- posts :: id in im.snapshot
    ensures forall c <- InvalidateCalls(im, posts) :: c.Ok? ==> c.value.actor == Importer(im)
  {
    if posts != [] {
      EndsOfImporter(im, posts[1..]);
    }
  }

  lemma AllOfImporter(im: Import, order: seq<string>)
    requires forall id <- order :: id in im.snapshot
    requires forall id <- im.posts :: id in im.snapshot
    ensures forall c <- ImportCalls(im, order) :: c.Ok? ==> c.value.actor == Importer(im)
  {
    EndsOfImporter(im, im.posts);
  }

  /** From an organization without facts, no call of the import of an acceptable snapshot is refused, the facts
      end with exactly the contents, states and replacements of the snapshot, and nobody else's change. */
  lemma ImportEndToEnd(policy: ContentPolicy, im: Import, t: Tables, order: seq<string>) returns (u: Tables)
    requires Importable(policy, im) && Inv(t) && Open(t) && NewOrganization(t, im.org) && IsOrder(LinksOf(im), order)
    ensures (forall id <- order :: id in im.snapshot) && (forall id <- im.posts :: id in im.snapshot)
    ensures RunsTo(policy, t, ImportCalls(im, order), u) && Complete(im, u)
    ensures Imported(policy, im, u, im.snapshot.Keys, AloneIn(im, im.posts))
    ensures Grows(t, u, im.org)
  {
    PostsAreKeys(im);
    OrderHasAll(im, order);
    assert forall id <- order :: id in Elements(order);
    hide IsOrder, Inv, Open, Importable, Grows, FactsDone, KeysDone, Olds;
    NothingImported(policy, im, t);
    assert Elements(order[..0]) == {} && AloneIn(im, im.posts[..0]) == {} && im.posts[0..] == im.posts;
    var m := CreatesFrom(policy, im, t, order, 0);
    u := EndsFrom(policy, im, m, 0);
    assert CreateCalls(im, order)[0..] == CreateCalls(im, order);
    RunsOn(policy, t, CreateCalls(im, order), m, InvalidateCalls(im, im.posts), u);
    AllOfImporter(im, order);
    CallsGrow(policy, t, ImportCalls(im, order), u, im.org);
    CompleteWhenDone(policy, im, u);
  }

  lemma CompleteWhenDone(policy: ContentPolicy, im: Import, u: Tables)
    requires forall id <- im.posts :: id in im.snapshot
    requires Imported(policy, im, u, im.snapshot.Keys, AloneIn(im, im.posts))
    ensures Complete(im, u)
  {
    hide Inv, Open, HoldsPost, RelationsDone, KeysDone;
    forall id <- im.snapshot ensures SupersedesOf(u, FactKey(im.org, id)) == ReplacedIn(LinksOf(im), id) {
      SupersedesMatch(policy, im, u, id);
    }
  }

  // ---- again ------------------------------------------------------------------------------

  ghost predicate Known(policy: ContentPolicy, t: Tables, call: Result<Attempt>) {
    && call.Ok? && Admitted(policy, call.value) && KeyOf(call.value) in t.idempotency
    && t.idempotency[KeyOf(call.value)].request == RequestOf(call.value)
  }

  lemma {:induction false} KnownCallsDoNothing(policy: ContentPolicy, t: Tables, calls: seq<Result<Attempt>>)
    requires Inv(t) && Open(t) && forall c <- calls :: Known(policy, t, c)
    ensures RunsTo(policy, t, calls, t)
    decreases |calls|
  {
    hide Inv, Open, Attempted;
    if calls != [] {
      assert Known(policy, t, calls[0]);
      RepeatedCall(policy, t, calls[0].value);
      KnownCallsDoNothing(policy, t, calls[1..]);
    }
  }

  lemma CreateIsKnown(policy: ContentPolicy, im: Import, later: Clock, u: Tables, w: Tables, id: string, ended: set<string>)
    requires Importable(policy, im) && ended <= im.snapshot.Keys && KeysDone(im, u, im.snapshot.Keys, ended) && IdempotencyKept(u, w)
    requires id in im.snapshot
    ensures Known(policy, w, CreateCall(im.(clock := later), id, ReplacedIn(LinksOf(im), id)))
  {
    assert RecordsCall(im, u, CreateKey(im.commit, id), CreateCall(im, id, ReplacedIn(LinksOf(im), id)));
  }

  lemma EndIsKnown(policy: ContentPolicy, im: Import, later: Clock, u: Tables, w: Tables, id: string, ended: set<string>)
    requires Importable(policy, im) && ended <= im.snapshot.Keys && KeysDone(im, u, im.snapshot.Keys, ended) && IdempotencyKept(u, w)
    requires id in im.snapshot && (InvalidatedAlone(im.snapshot[id]) ==> id in ended)
    ensures forall c <- EndCalls(im.(clock := later), id) :: Known(policy, w, c)
  {
    hide InvalidatedAlone, CreateAllowed, WellLinked, WellFormed;
    if InvalidatedAlone(im.snapshot[id]) {
      assert RecordsCall(im, u, InvalidateKey(im.commit, id), InvalidateCall(im, id));
    }
  }

  lemma {:induction false} EndsAreKnown(policy: ContentPolicy, im: Import, later: Clock, u: Tables, w: Tables,
                                        posts: seq<string>, ended: set<string>)
    requires Importable(policy, im) && ended <= im.snapshot.Keys && KeysDone(im, u, im.snapshot.Keys, ended) && IdempotencyKept(u, w)
    requires forall id <- posts :: id in im.snapshot && (InvalidatedAlone(im.snapshot[id]) ==> id in ended)
    ensures forall c <- InvalidateCalls(im.(clock := later), posts) :: Known(policy, w, c)
    decreases |posts|
  {
    hide Importable, KeysDone, IdempotencyKept, InvalidatedAlone, EndCalls, Known;
    if posts != [] {
      EndsAreKnown(policy, im, later, u, w, posts[1..], ended);
      EndIsKnown(policy, im, later, u, w, posts[0], ended);
    }
  }

  /** Once an import has run, running it again at any later time changes nothing, whatever was written in between. */
  lemma ImportAgain(policy: ContentPolicy, im: Import, later: Clock, u: Tables, w: Tables, order: seq<string>)
    requires forall id <- order :: id in im.snapshot
    requires forall id <- im.posts :: id in im.snapshot
    requires Imported(policy, im, u, im.snapshot.Keys, AloneIn(im, im.posts))
    requires Inv(w) && Open(w) && IdempotencyKept(u, w)
    ensures RunsTo(policy, w, ImportCalls(im.(clock := later), order), w)
  {
    hide Inv, Open, Importable, FactsDone, RelationsDone, KeysDone, Known, Olds;
    var ended := AloneIn(im, im.posts);
    var again := im.(clock := later);
    assert LinksOf(again) == LinksOf(im);
    forall c <- CreateCalls(again, order) ensures Known(policy, w, c) {
      var i :| 0 <= i < |order| && c == CreateCall(again, order[i], ReplacedIn(LinksOf(im), order[i]));
      CreateIsKnown(policy, im, later, u, w, order[i], ended);
    }
    EndsAreKnown(policy, im, later, u, w, im.posts, ended);
    KnownCallsDoNothing(policy, w, ImportCalls(again, order));
  }
}
