/** The parity report of an import, the importer that produces it, and when the two stores agree. */
module ImportParity {
  import opened Domain
  import opened Ordering
  import opened Tables
  import opened StoreInvariant
  import opened StoreRuns
  import opened StoreTheorems
  import opened StoreEffects
  import opened ImportPlan
  import opened SnapshotImport
  import opened Repository

  datatype Field =
    | KindField | StatementField | WhyField | HowToApplyField | SourceField | SourceTypeField
    | NamespaceField | TagsField | BodyField | StatusField | ReasonField | HashField | SupersedesField

  /** A value as the report shows it: JSON text is injective, so the value stands for it. An odd one is no text, and has
      a JSON text or none. */
  datatype Value =
    | Null | Words(text: string) | Odd(json: Option<string>) | OfKind(kind: Kind) | OfType(sourceType: SourceType)
    | Ids(items: seq<string>) | HashOf(payload: Payload)

  datatype Mismatch = Mismatch(id: string, field: Field, git: Value, postgres: Value)

  datatype Report = Report(facts: nat, relations: nat, mismatches: seq<Mismatch>, parity: bool)

  datatype Outcome = Rejected(plan: PlanError) | Stopped(error: Error) | Reported(report: Report)

  function StatusText(status: Status): string {
    if status == Active then "active" else "invalidated"
  }

  function RawValue(raw: Raw): Value {
    match raw
    case Absent => Null
    case Text(text) => Words(text)
    case Other(_, _, json) => Odd(json)
  }

  function StoredValue(stored: Option<string>): Value {
    if stored.Some? then Words(stored.value) else Null
  }

  function Compared(id: string, field: Field, git: Value, postgres: Value): seq<Mismatch> {
    if git != postgres then [Mismatch(id, field, git, postgres)] else []
  }

  /** The fields that differ, in the order they are compared. The content hash is injective in the payload. */
  function Differences(id: string, post: Post, payload: Payload, record: FactRecord): seq<Mismatch> {
    var p := record.payload;
    Compared(id, KindField, OfKind(payload.kind), OfKind(p.kind))
    + Compared(id, StatementField, Words(payload.statement), Words(p.statement))
    + Compared(id, WhyField, Words(payload.why), Words(p.why))
    + Compared(id, HowToApplyField, Words(payload.howToApply), Words(p.howToApply))
    + Compared(id, SourceField, Words(payload.source), Words(p.source))
    + Compared(id, SourceTypeField, OfType(payload.sourceType), OfType(p.sourceType))
    + Compared(id, NamespaceField, Words(payload.namespace), Words(p.namespace))
    + Compared(id, TagsField, Ids(payload.tags), Ids(p.tags))
    + Compared(id, BodyField, Words(payload.body), Words(p.body))
    + Compared(id, StatusField, RawValue(post.status), Words(StatusText(record.status)))
    + Compared(id, ReasonField, RawValue(post.reason), StoredValue(record.invalidationReason))
    + Compared(id, HashField, HashOf(payload), HashOf(p))
  }

  /** A status that is a text, and a reason that the report can show if it has to: one that is no text never equals
      what is stored. */
  predicate Reportable(post: Post) {
    && post.status.Text? && post.status.text != ""
    && (post.reason.Other? ==> post.reason.json.Some?)
  }

  /** How comparing a post that cannot be reported ends. */
  function Unreportable(post: Post): Error {
    if post.status.Text? && post.status.text != "" then TypeError else ValueError
  }

  ghost function PostParity(t: Tables, im: Import, id: string): Result<seq<Mismatch>>
    requires HeadsHaveRevisions(t) && id in im.snapshot
  {
    var post := im.snapshot[id];
    match GetFact(t, FactKey(im.org, id))
    case Err(e) => Err(e)
    case Ok(record) =>
      if post.payload.None? then Err(ValueError)
      else if !Reportable(post) then Err(Unreportable(post))
      else Ok(Differences(id, post, post.payload.value, record)
              + Compared(id, SupersedesField, Ids(ReplacedIn(LinksOf(im), id)), Ids(SupersedesOf(t, FactKey(im.org, id)))))
  }

  ghost function Parity(t: Tables, im: Import, ids: seq<string>): Result<seq<Mismatch>>
    requires HeadsHaveRevisions(t) && forall id <- ids :: id in im.snapshot
  {
    if ids == [] then Ok([])
    else
      match Parity(t, im, ids[..|ids| - 1])
      case Err(e) => Err(e)
      case Ok(before) =>
        match PostParity(t, im, ids[|ids| - 1])
        case Err(e) => Err(e)
        case Ok(more) => Ok(before + more)
  }

  // ---- exactness --------------------------------------------------------------------------

  /** The store will not write another status for this post. */
  predicate StatusKept(post: Post) {
    post.status == Text(if post.supersededBy.Text? || post.status == Text("invalidated") then "invalidated" else "active")
  }

  /** The reason in the front matter is the one the store writes for the same history. */
  predicate ReasonKept(post: Post) {
    if post.supersededBy.Text? then post.reason == Text(ReplacedBy(post.supersededBy.text))
    else if post.status == Text("invalidated") then post.reason.Text? && post.reason.text != ""
    else post.reason.Absent?
  }

  function StoredReason(post: Post): Option<string> {
    if post.supersededBy.Text? then Some(ReplacedBy(post.supersededBy.text))
    else if post.status == Text("invalidated") then Some(StandaloneReason(post.reason))
    else None
  }

  function StatusWritten(post: Post): string {
    if StoredReason(post).Some? then "invalidated" else "active"
  }

  /** How a post differs from what the store writes for the same history. */
  function PostDifference(id: string, post: Post): seq<Mismatch> {
    (if StatusKept(post) then [] else [Mismatch(id, StatusField, RawValue(post.status), Words(StatusWritten(post)))])
    + if ReasonKept(post) then [] else [Mismatch(id, ReasonField, RawValue(post.reason), StoredValue(StoredReason(post)))]
  }

  ghost predicate Linked(im: Import, id: string)
    requires id in im.snapshot
  {
    var next := im.snapshot[id].supersededBy;
    next.Absent? || (next.Text? && next.text in im.snapshot && next.text != "")
  }

  lemma IsLinked(policy: ContentPolicy, im: Import, id: string)
    requires Importable(policy, im) && id in im.snapshot
    ensures Linked(im, id) || (im.snapshot[id].supersededBy.Other? && !im.snapshot[id].supersededBy.truthy)
    ensures Linked(im, id)
  {
    assert LinkError(LinksOf(im), id).None?;
  }

  lemma StoredAs(im: Import, u: Tables, id: string, ended: set<string>)
    requires id in im.snapshot && im.snapshot[id].payload.Some? && Linked(im, id) && HeadsHaveRevisions(u)
    requires HoldsPost(im, u, id, im.snapshot.Keys, ended) && (id in ended <==> InvalidatedAlone(im.snapshot[id]))
    ensures var post, r := im.snapshot[id], GetFact(u, FactKey(im.org, id));
            && r.Ok? && Some(r.value.payload) == post.payload
            && r.value.status == (if StoredReason(post).Some? then Invalidated else Active)
            && r.value.invalidationReason == StoredReason(post)
  {
    hide ReplacedBy, StandaloneReason, HeadsHaveRevisions;
  }

  lemma RowOf(im: Import, u: Tables, id: string)
    requires Complete(im, u) && WellFormed(im) && id in im.snapshot
    ensures (forall id <- im.posts :: id in im.snapshot) && im.snapshot[id].payload.Some?
    ensures HoldsPost(im, u, id, im.snapshot.Keys, AloneIn(im, im.posts))
    ensures id in AloneIn(im, im.posts) <==> InvalidatedAlone(im.snapshot[id])
    ensures SupersedesOf(u, FactKey(im.org, id)) == ReplacedIn(LinksOf(im), id)
  {
    PostsAreKeys(im);
    hide HoldsPost, InvalidatedAlone;
  }

  lemma ReasonExactly(post: Post, stored: FactRecord)
    requires !post.supersededBy.Other? && stored.invalidationReason == StoredReason(post)
    requires stored.status == if StoredReason(post).Some? then Invalidated else Active
    ensures StatusText(stored.status) == StatusWritten(post)
    ensures post.status == Text(StatusText(stored.status)) <==> StatusKept(post)
    ensures RawValue(post.reason) == StoredValue(stored.invalidationReason) <==> ReasonKept(post)
  {
  }

  lemma DifferencesExactly(id: string, post: Post, stored: FactRecord)
    requires post.payload == Some(stored.payload)
    ensures Differences(id, post, stored.payload, stored) ==
            Compared(id, StatusField, RawValue(post.status), Words(StatusText(stored.status)))
            + Compared(id, ReasonField, RawValue(post.reason), StoredValue(stored.invalidationReason))
  {
    hide RawValue, StoredValue, StatusText;
  }

  lemma PostParityExactly(policy: ContentPolicy, im: Import, u: Tables, id: string)
    requires Importable(policy, im) && Complete(im, u) && HeadsHaveRevisions(u) && id in im.snapshot
    ensures var post := im.snapshot[id];
            PostParity(u, im, id) == if Reportable(post) then Ok(PostDifference(id, post)) else Err(Unreportable(post))
  {
    hide Complete, Importable, SupersedesOf, ReplacedIn, Differences, StatusKept, ReasonKept, StoredValue,
      StoredReason, StatusWritten, StatusText;
    hide HoldsPost, InvalidatedAlone, Reportable, Unreportable;
    IsLinked(policy, im, id);
    AcceptedIsWellFormed(policy, im);
    RowOf(im, u, id);
    StoredAs(im, u, id, AloneIn(im, im.posts));
    var stored := GetFact(u, FactKey(im.org, id)).value;
    DifferencesExactly(id, im.snapshot[id], stored);
    ReasonExactly(im.snapshot[id], stored);
    var ms := Differences(id, im.snapshot[id], stored.payload, stored);
    assert ms + [] == ms;
  }

  lemma AcceptedIsWellFormed(policy: ContentPolicy, im: Import)
    requires Importable(policy, im)
    ensures WellFormed(im)
  {
  }

  /** What the report lists for these posts, or how it ends at the first one that cannot be reported. */
  ghost function PostDifferences(im: Import, ids: seq<string>): Result<seq<Mismatch>>
    requires forall id <- ids :: id in im.snapshot
  {
    if ids == [] then Ok([])
    else
      var before := PostDifferences(im, ids[..|ids| - 1]);
      var id := ids[|ids| - 1];
      var post := im.snapshot[id];
      if before.Err? then before
      else if Reportable(post) then Ok(before.value + PostDifference(id, post)) else Err(Unreportable(post))
  }

  lemma {:induction false} DifferencesCover(im: Import, ids: seq<string>)
    requires forall id <- ids :: id in im.snapshot
    ensures PostDifferences(im, ids).Ok? <==> forall id <- ids :: Reportable(im.snapshot[id])
    ensures PostDifferences(im, ids).Ok? ==>
              (PostDifferences(im, ids).value == [] <==> forall id <- ids :: StatusKept(im.snapshot[id]) && ReasonKept(im.snapshot[id]))
  {
    hide Reportable, StatusKept, ReasonKept, PostDifference, Unreportable;
    if ids != [] {
      var n := |ids| - 1;
      DifferencesCover(im, ids[..n]);
      NoDifference(ids[n], im.snapshot[ids[n]]);
      assert ids == ids[..n] + [ids[n]];
      assert forall id :: id in ids <==> id in ids[..n] || id == ids[n];
    }
  }

  lemma NoDifference(id: string, post: Post)
    ensures PostDifference(id, post) == [] <==> StatusKept(post) && ReasonKept(post)
  {
    hide StatusKept, ReasonKept;
  }

  lemma KeptIsReportable(post: Post)
    requires StatusKept(post) && ReasonKept(post)
    ensures Reportable(post)
  {
  }

  /** After a complete import only statuses and reasons can differ. The comparison ends early exactly at the first
      post that cannot be reported; otherwise each difference is reported with both values, and parity holds exactly
      when every post has the status and the reason that the store writes for it. */
  lemma {:induction false} ParityExactly(policy: ContentPolicy, im: Import, u: Tables, ids: seq<string>)
    requires Importable(policy, im) && Complete(im, u) && HeadsHaveRevisions(u)
    requires forall id <- ids :: id in im.snapshot
    ensures Parity(u, im, ids) == PostDifferences(im, ids)
    ensures Parity(u, im, ids).Ok? <==> forall id <- ids :: Reportable(im.snapshot[id])
    ensures Parity(u, im, ids) == Ok([]) <==> forall id <- ids :: StatusKept(im.snapshot[id]) && ReasonKept(im.snapshot[id])
    decreases |ids|
  {
    hide Importable, Complete, PostParity, StatusKept, ReasonKept, Reportable;
    DifferencesCover(im, ids);
    forall id <- ids ensures StatusKept(im.snapshot[id]) && ReasonKept(im.snapshot[id]) ==> Reportable(im.snapshot[id]) {
      if StatusKept(im.snapshot[id]) && ReasonKept(im.snapshot[id]) {
        KeptIsReportable(im.snapshot[id]);
      }
    }
    if ids != [] {
      ParityExactly(policy, im, u, ids[..|ids| - 1]);
      PostParityExactly(policy, im, u, ids[|ids| - 1]);
    }
  }

  /** No call of the import of an acceptable snapshot into an organization without facts is refused. It reaches its
      report if and only if every post can be reported, and then reports parity exactly when every post has the
      status and the reason that the store writes for it. */
  lemma ImportReportsExactly(policy: ContentPolicy, im: Import, t: Tables, order: seq<string>) returns (u: Tables)
    requires Importable(policy, im) && Inv(t) && Open(t) && NewOrganization(t, im.org) && IsOrder(LinksOf(im), order)
    ensures (forall id <- order :: id in im.snapshot) && (forall id <- im.posts :: id in im.snapshot)
    ensures RunsTo(policy, t, ImportCalls(im, order), u) && Complete(im, u) && HeadsHaveRevisions(u)
    ensures Parity(u, im, im.posts) == PostDifferences(im, im.posts)
    ensures Parity(u, im, im.posts).Ok? <==> forall id <- im.snapshot :: Reportable(im.snapshot[id])
    ensures Parity(u, im, im.posts) == Ok([]) <==> forall id <- im.snapshot :: StatusKept(im.snapshot[id]) && ReasonKept(im.snapshot[id])
  {
    u := ImportEndToEnd(policy, im, t, order);
    AcceptedIsWellFormed(policy, im);
    PostsAreKeys(im);
    hide Importable, Inv, Complete, IsOrder, StatusKept, ReasonKept, Reportable, HoldsPost, FactsDone, RelationsDone, KeysDone, Grows,
      NewOrganization;
    OpenHasRevisions(u);
    ParityExactly(policy, im, u, im.posts);
  }

  // ---- snapshots of one post --------------------------------------------------------------

  const ONE := "fact"
  const PAYLOAD := Payload(Logic, "statement", "why", "how to apply", "source", Agent, "plk.domain.example", [], "")

  predicate IsOnePost(im: Import, post: Post) {
    im.posts == [ONE] && im.snapshot == map[ONE := post] && post.payload == Some(PAYLOAD) && post.supersededBy.Absent?
  }

  lemma OnePost(policy: ContentPolicy, im: Import, t: Tables, post: Post)
    requires IsOnePost(im, post) && policy(ONE, PAYLOAD) && !post.status.Absent?
    requires InvalidatedAlone(post) ==> |StandaloneReason(post.reason)| >= 5
    ensures Importable(policy, im) && IsOrder(LinksOf(im), [ONE])
  {
    assert Elements([ONE]) == {ONE} && LinksOf(im) == map[ONE := Absent];
    assert Olds(LinksOf(im), ONE) == {};
    NoElements(ReplacedIn(LinksOf(im), ONE));
  }

  lemma OneStored(policy: ContentPolicy, im: Import, t: Tables, post: Post) returns (u: Tables)
    requires IsOnePost(im, post) && policy(ONE, PAYLOAD) && !post.status.Absent?
    requires InvalidatedAlone(post) ==> |StandaloneReason(post.reason)| >= 5
    requires Inv(t) && Open(t) && NewOrganization(t, im.org)
    ensures RunsTo(policy, t, ImportCalls(im, [ONE]), u) && HeadsHaveRevisions(u)
    ensures GetFact(u, FactKey(im.org, ONE)).Ok? && GetFact(u, FactKey(im.org, ONE)).value.payload == PAYLOAD
    ensures Parity(u, im, im.posts) == if Reportable(post) then Ok(PostDifference(ONE, post)) else Err(Unreportable(post))
  {
    OnePost(policy, im, t, post);
    hide Inv, Open, Importable, NewOrganization, IsOrder, RunsTo, Complete, InvalidatedAlone, Reportable, Unreportable, PostDifference,
      Parity, GetFact, HoldsPost, StoredReason, StatusKept, ReasonKept;
    u := ImportReportsExactly(policy, im, t, [ONE]);
    AcceptedIsWellFormed(policy, im);
    RowOf(im, u, ONE);
    IsLinked(policy, im, ONE);
    StoredAs(im, u, ONE, AloneIn(im, im.posts));
    OneDiffers(im, post);
  }

  lemma OneDiffers(im: Import, post: Post)
    requires IsOnePost(im, post)
    ensures PostDifferences(im, [ONE]) == if Reportable(post) then Ok(PostDifference(ONE, post)) else Err(Unreportable(post))
  {
    hide Reportable, PostDifference, Unreportable;
    assert [ONE][..0] == [];
    assert PostDifferences(im, []) == Ok([]);
    assert [] + PostDifference(ONE, post) == PostDifference(ONE, post);
  }

  /** A reason that YAML reads as a date: everything is stored, and there is no report. */
  lemma DatedReasonEndsTheImport(policy: ContentPolicy, im: Import, t: Tables) returns (u: Tables)
    requires IsOnePost(im, Post(Some(PAYLOAD), Text("active"), Absent, Other(true, "2026-01-01", None))) && policy(ONE, PAYLOAD)
    requires Inv(t) && Open(t) && NewOrganization(t, im.org)
    ensures RunsTo(policy, t, ImportCalls(im, [ONE]), u) && HeadsHaveRevisions(u)
    ensures GetFact(u, FactKey(im.org, ONE)).Ok? && GetFact(u, FactKey(im.org, ONE)).value.payload == PAYLOAD
    ensures Parity(u, im, im.posts) == Err(TypeError)
  {
    hide Inv, Open, NewOrganization, RunsTo, Parity, GetFact, HeadsHaveRevisions;
    u := OneStored(policy, im, t, im.snapshot[ONE]);
  }

  /** An invalidated post without a reason: the store writes its default, and the report has that one difference. */
  lemma MissingReasonIsReported(policy: ContentPolicy, im: Import, t: Tables) returns (u: Tables)
    requires IsOnePost(im, Post(Some(PAYLOAD), Text("invalidated"), Absent, Absent)) && policy(ONE, PAYLOAD)
    requires Inv(t) && Open(t) && NewOrganization(t, im.org)
    ensures RunsTo(policy, t, ImportCalls(im, [ONE]), u) && HeadsHaveRevisions(u)
    ensures Parity(u, im, im.posts) == Ok([Mismatch(ONE, ReasonField, Null, Words("invalidated in Git snapshot"))])
  {
    hide Inv, Open, NewOrganization, RunsTo, Parity, GetFact, HeadsHaveRevisions;
    u := OneStored(policy, im, t, im.snapshot[ONE]);
    var m := Mismatch(ONE, ReasonField, Null, Words("invalidated in Git snapshot"));
    assert [] + [m] == [m] == PostDifference(ONE, im.snapshot[ONE]);
  }

  // ---- the importer -----------------------------------------------------------------------

  method History(database: Database, f: FactKey) returns (supersedes: seq<string>)
    ensures supersedes == SupersedesOf(database.Snapshot(), f)
  {
    supersedes := Sort(set x <- database.relations | x.from == f :: x.to.id);
  }

  /** Makes one call of the import. */
  method Perform(repository: FactRepository, a: Attempt) returns (error: Option<Error>)
    requires Inv(repository.database.Snapshot()) && Open(repository.database.Snapshot())
    requires a.Create? || a.Invalidate?
    modifies repository.database
    ensures var (u, r) := Attempted(repository.policy, old(repository.database.Snapshot()), a);
            repository.database.Snapshot() == u && error == (if r.Err? then Some(r.error) else None)
    ensures Inv(repository.database.Snapshot()) && Open(repository.database.Snapshot())
  {
    hide Inv, CreateTx, InvalidateTx;
    AttemptKeepsInv(repository.policy, repository.database.Snapshot(), a);
    var r: Result<WriteResult>;
    if a.Create? {
      r := repository.Create(a.actor, a.create, a.superseded, a.key, a.now);
    } else {
      r := repository.Invalidate(a.actor, a.invalidate, a.expected, a.key, a.now);
    }
    error := if r.Err? then Some(r.error) else None;
  }

  method CreateFacts(repository: FactRepository, im: Import, order: seq<string>, replacements: map<string, seq<string>>)
    returns (error: Option<Error>)
    requires Inv(repository.database.Snapshot()) && Open(repository.database.Snapshot())
    requires forall id <- order :: id in im.snapshot
    requires forall id :: (if id in replacements then replacements[id] else []) == ReplacedIn(LinksOf(im), id)
    modifies repository.database
    ensures (repository.database.Snapshot(), error) ==
            Calls(repository.policy, old(repository.database.Snapshot()), CreateCalls(im, order))
    ensures Inv(repository.database.Snapshot()) && Open(repository.database.Snapshot())
  {
    hide Inv, Open, Attempted, ReplacedIn;
    ghost var all := Calls(repository.policy, repository.database.Snapshot(), CreateCalls(im, order));
    assert CreateCalls(im, order)[0..] == CreateCalls(im, order);
    for n := 0 to |order|
      invariant Inv(repository.database.Snapshot()) && Open(repository.database.Snapshot())
      invariant all == Calls(repository.policy, repository.database.Snapshot(), CreateCalls(im, order)[n..])
    {
      var id := order[n];
      var call := CreateCall(im, id, if id in replacements then replacements[id] else []);
      ghost var rest := CreateCalls(im, order)[n..];
      assert rest[0] == call && rest[1..] == CreateCalls(im, order)[n + 1..];
      if call.Err? {
        return Some(call.error);
      }
      error := Perform(repository, call.value);
      if error.Some? {
        return;
      }
    }
    return None;
  }

  method InvalidateFacts(repository: FactRepository, im: Import) returns (error: Option<Error>)
    requires Inv(repository.database.Snapshot()) && Open(repository.database.Snapshot())
    requires forall id <- im.posts :: id in im.snapshot
    modifies repository.database
    ensures (repository.database.Snapshot(), error) ==
            Calls(repository.policy, old(repository.database.Snapshot()), InvalidateCalls(im, im.posts))
    ensures Inv(repository.database.Snapshot()) && Open(repository.database.Snapshot())
  {
    hide Inv, Open, Attempted, InvalidatedAlone;
    ghost var all := Calls(repository.policy, repository.database.Snapshot(), InvalidateCalls(im, im.posts));
    assert im.posts[0..] == im.posts;
    for n := 0 to |im.posts|
      invariant Inv(repository.database.Snapshot()) && Open(repository.database.Snapshot())
      invariant all == Calls(repository.policy, repository.database.Snapshot(), InvalidateCalls(im, im.posts[n..]))
    {
      var id := im.posts[n];
      ghost var ids := im.posts[n..];
      assert ids[1..] == im.posts[n + 1..];
      if im.snapshot[id].status.Absent? {
        return Some(KeyError);
      }
      if InvalidatedAlone(im.snapshot[id]) {
        var call := InvalidateCall(im, id);
        assert InvalidateCalls(im, ids)[1..] == InvalidateCalls(im, ids[1..]);
        if call.Err? {
          return Some(call.error);
        }
        error := Perform(repository, call.value);
        if error.Some? {
          return;
        }
      } else {
        assert InvalidateCalls(im, ids) == InvalidateCalls(im, ids[1..]);
      }
    }
    return None;
  }

  method CheckParity(repository: FactRepository, im: Import, replacements: map<string, seq<string>>)
    returns (r: Result<seq<Mismatch>>)
    requires HeadsHaveRevisions(repository.database.Snapshot())
    requires forall id <- im.posts :: id in im.snapshot
    requires forall id :: (if id in replacements then replacements[id] else []) == ReplacedIn(LinksOf(im), id)
    ensures r == Parity(repository.database.Snapshot(), im, im.posts)
  {
    hide HeadsHaveRevisions, GetFact, Differences, ReplacedIn, SupersedesOf;
    var mismatches: seq<Mismatch> := [];
    ghost var t := repository.database.Snapshot();
    for n := 0 to |im.posts|
      invariant Parity(t, im, im.posts[..n]) == Ok(mismatches)
    {
      assert im.posts[..n + 1][..n] == im.posts[..n];
      var id := im.posts[n];
      var post := im.snapshot[id];
      var fact := repository.Get(FactKey(im.org, id));
      if fact.Err? {
        ParityStops(t, im, im.posts, n + 1);
        return Err(fact.error);
      }
      if post.payload.None? || !post.status.Text? || post.status.text == "" {
        ParityStops(t, im, im.posts, n + 1);
        return Err(ValueError);
      }
      if post.reason.Other? && post.reason.json.None? {
        ParityStops(t, im, im.posts, n + 1);
        return Err(TypeError);
      }
      var supersedes := History(repository.database, FactKey(im.org, id));
      var expected := if id in replacements then replacements[id] else [];
      mismatches := mismatches + (Differences(id, post, post.payload.value, fact.value)
                                  + Compared(id, SupersedesField, Ids(expected), Ids(supersedes)));
    }
    assert im.posts[..|im.posts|] == im.posts;
    return Ok(mismatches);
  }

  lemma {:induction false} ParityStops(t: Tables, im: Import, ids: seq<string>, n: nat)
    requires HeadsHaveRevisions(t) && (forall id <- ids :: id in im.snapshot) && n <= |ids|
    requires Parity(t, im, ids[..n]).Err?
    ensures Parity(t, im, ids) == Parity(t, im, ids[..n])
    decreases |ids| - n
  {
    hide HeadsHaveRevisions, PostParity;
    if n == |ids| {
      assert ids[..n] == ids;
    } else {
      assert ids[..n + 1][..n] == ids[..n];
      ParityStops(t, im, ids, n + 1);
    }
  }

  /** The posts that name a replacement. */
  function Replaced(links: Links): set<string> {
    set older <- links | links[older].Text? && links[older].text != ""
  }

  /** Those whose replacement is among these. */
  function ReplacedFrom(links: Links, names: set<string>): set<string> {
    set older <- Replaced(links) | links[older].text in names
  }

  method CountRelations(replacements: map<string, seq<string>>, ghost links: Links) returns (n: nat)
    requires forall id :: (if id in replacements then replacements[id] else []) == ReplacedIn(links, id)
    ensures n == |Replaced(links)|
  {
    hide ReplacedFrom, ReplacedIn;
    n := 0;
    var rest := replacements.Keys;
    ghost var names: set<string> := {};
    NoneReplaced(links);
    while rest != {}
      invariant names !! rest && names + rest == replacements.Keys && n == |ReplacedFrom(links, names)|
      decreases |rest|
    {
      var newer :| newer in rest;
      OneMoreReplaced(links, names, newer);
      rest, names := rest - {newer}, names + {newer};
      n := n + |replacements[newer]|;
    }
    AllReplaced(links, replacements);
  }

  lemma NoneReplaced(links: Links)
    ensures ReplacedFrom(links, {}) == {}
  {
  }

  lemma OneMoreReplaced(links: Links, names: set<string>, newer: string)
    requires newer !in names
    ensures |ReplacedFrom(links, names + {newer})| == |ReplacedFrom(links, names)| + |ReplacedIn(links, newer)|
  {
    var olds := Elements(ReplacedIn(links, newer));
    AscendingIsDistinct(ReplacedIn(links, newer));
    DistinctSize(ReplacedIn(links, newer));
    assert ReplacedFrom(links, names + {newer}) == ReplacedFrom(links, names) + olds;
    assert ReplacedFrom(links, names) !! olds;
  }

  lemma AllReplaced(links: Links, replacements: map<string, seq<string>>)
    requires forall id :: (if id in replacements then replacements[id] else []) == ReplacedIn(links, id)
    ensures ReplacedFrom(links, replacements.Keys) == Replaced(links)
  {
    forall older <- Replaced(links) ensures links[older].text in replacements {
      assert older in Elements(ReplacedIn(links, links[older].text));
    }
  }

  /** Imports the snapshot and reports where the two stores differ. A snapshot that cannot be ordered is rejected
      before anything is written; otherwise the calls of the least order are made until one fails. */
  method ShadowImport(repository: FactRepository, im: Import) returns (r: Outcome, ghost order: seq<string>)
    requires WellFormed(im)
    requires Inv(repository.database.Snapshot()) && Open(repository.database.Snapshot())
    modifies repository.database
    ensures r.Rejected? <==> !(WellLinked(LinksOf(im)) && !HasCycle(LinksOf(im)))
    ensures r.Rejected? ==> repository.database.Snapshot() == old(repository.database.Snapshot())
    ensures !r.Rejected? ==>
              && IsLeastOrder(LinksOf(im), order) && (forall id <- order + im.posts :: id in im.snapshot)
              && var (u, error) := Calls(repository.policy, old(repository.database.Snapshot()), ImportCalls(im, order));
              && repository.database.Snapshot() == u
              && (error.Some? ==> r == Stopped(error.value))
              && (error.None? && HeadsHaveRevisions(u) ==>
                    match Parity(u, im, im.posts)
                    case Err(e) => r == Stopped(e)
                    case Ok(ms) => r == Reported(Report(|im.posts|, |Replaced(LinksOf(im))|, ms, ms == [])))
  {
    hide Inv, Open, WellLinked, HasCycle, IsLeastOrder, ReplacedIn, HeadsHaveRevisions;
    PostsAreKeys(im);
    var links := LinksOf(im);
    assert links.Keys == im.snapshot.Keys;
    var plan := PlanImport(im.posts, links);
    if plan.Refused? {
      return Outcome.Rejected(plan.error), [];
    }
    order := plan.order;
    LeastHasAll(im, order);
    var replacements := SupersedesMap(im.posts, links);
    NoneIsOther(links);
    ghost var before := repository.database.Snapshot();
    var error := CreateFacts(repository, im, plan.order, replacements.value);
    CallsSplit(repository.policy, before, CreateCalls(im, order), InvalidateCalls(im, im.posts));
    if error.Some? {
      return Stopped(error.value), order;
    }
    error := InvalidateFacts(repository, im);
    if error.Some? {
      return Stopped(error.value), order;
    }
    OpenHasRevisions(repository.database.Snapshot());
    var mismatches := CheckParity(repository, im, replacements.value);
    if mismatches.Err? {
      return Stopped(mismatches.error), order;
    }
    var relations := CountRelations(replacements.value, links);
    return Reported(Report(|im.posts|, relations, mismatches.value, mismatches.value == [])), order;
  }

  lemma LeastHasAll(im: Import, order: seq<string>)
    requires IsLeastOrder(LinksOf(im), order)
    ensures forall id <- order :: id in im.snapshot
  {
    OrderHasAll(im, order);
    assert forall id <- order :: id in Elements(order);
  }

  lemma NoneIsOther(links: Links)
    requires WellLinked(links)
    ensures forall id <- links :: !links[id].Other?
  {
    forall id <- links ensures !links[id].Other? {
      assert LinkError(links, id).None?;
    }
  }

  lemma {:induction false} CallsSplit(policy: ContentPolicy, t: Tables, xs: seq<Result<Attempt>>, ys: seq<Result<Attempt>>)
    requires Inv(t) && Open(t)
    ensures var (m, e) := Calls(policy, t, xs);
            && Inv(m) && Open(m)
            && Calls(policy, t, xs + ys) == if e.Some? then (m, e) else Calls(policy, m, ys)
    decreases |xs|
  {
    hide Inv, Open, Attempted;
    if xs == [] {
      assert xs + ys == ys;
    } else if xs[0].Ok? {
      assert (xs + ys)[1..] == xs[1..] + ys;
      CallsSplit(policy, AfterFirst(policy, t, xs), xs[1..], ys);
    }
  }

  // ---- snapshots of the store itself ------------------------------------------------------

  ghost function SupersederOf(t: Tables, f: FactKey): Raw {
    if x :| x in t.relations && x.to == f then Text(x.from.id) else Absent
  }

  /** The superseded_by map that a snapshot of one organization would have. */
  ghost function StoredLinks(t: Tables, org: OrgId): Links {
    map id <- (set f <- t.heads | f.org == org :: f.id) :: SupersederOf(t, FactKey(org, id))
  }

  lemma CycleIsChain(t: Tables, org: OrgId, walk: seq<string>) returns (chain: seq<FactKey>)
    requires IsCycle(StoredLinks(t, org), walk)
    requires forall x <- t.relations :: x.to.org == org ==> x.from.org == org
    ensures SupersedesChain(t, chain) && chain[0] == chain[|chain| - 1]
  {
    var n := |walk|;
    chain := seq(n, i requires 0 <= i < n => FactKey(org, walk[n - 1 - i]));
    forall i | 0 <= i < n - 1 ensures Supersedes(t, chain[i], chain[i + 1]) {
      assert Replaces(StoredLinks(t, org), walk[n - 2 - i + 1], walk[n - 2 - i]);
    }
  }

  lemma StoredLinkIsGood(t: Tables, org: OrgId, id: string)
    requires forall chain :: SupersedesChain(t, chain) ==> chain[0] != chain[|chain| - 1]
    requires forall x <- t.relations :: x.from.org == x.to.org && x.from in t.heads
    requires id in StoredLinks(t, org)
    ensures LinkError(StoredLinks(t, org), id).None?
  {
    var f := FactKey(org, id);
    if x :| x in t.relations && x.to == f && SupersederOf(t, f) == Text(x.from.id) {
      assert Supersedes(t, x.from, f);
      assert x.from == f ==> SupersedesChain(t, [f, f]);
    }
  }

  lemma RelatedAreStored(t: Tables)
    requires Relations(t)
    ensures forall x <- t.relations :: x.from in t.heads
  {
  }

  lemma FinalIsSound(policy: ContentPolicy, attempts: seq<Attempt>)
    ensures Relations(Final(policy, attempts))
  {
  }

  /** Whatever was written, the supersedes relation of an organization is one that the importer can order. */
  lemma StoredLinksAreOrdered(policy: ContentPolicy, attempts: seq<Attempt>, org: OrgId)
    ensures var links := StoredLinks(Final(policy, attempts), org);
            WellLinked(links) && !HasCycle(links)
  {
    var t := Final(policy, attempts);
    FinalIsSound(policy, attempts);
    RelatedAreStored(t);
    hide Inv, Open, Final, Relations, StoredLinks, LinkError;
    SupersedesIsForest(policy, attempts);
    RelationsStayInOrg(policy, attempts, |attempts|);
    assert t == StateAt(policy, attempts, |attempts|) by {
      FinalIsLast(policy, attempts);
    }
    forall id <- StoredLinks(t, org) ensures LinkError(StoredLinks(t, org), id).None? {
      StoredLinkIsGood(t, org, id);
    }
    if walk :| IsCycle(StoredLinks(t, org), walk) {
      var chain := CycleIsChain(t, org, walk);
    }
  }

  lemma FinalIsLast(policy: ContentPolicy, attempts: seq<Attempt>)
    ensures Final(policy, attempts) == StateAt(policy, attempts, |attempts|)
  {
  }
}
