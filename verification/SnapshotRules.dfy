/** What the importer accepts, asks for and reports, in terms of the posts and the rows alone. */
module SnapshotRules {
  import opened Domain
  import opened Ordering
  import opened Tables
  import opened StoreRuns
  import opened ImportPlan
  import opened SnapshotImport
  import opened ImportParity

  // ---- what is accepted -------------------------------------------------------------------

  /** A reason that is given is long enough; one that is not is replaced by the default. */
  ghost predicate ReasonSuffices(reason: Raw) {
    match reason
    case Absent => true
    case Text(text) => text == "" || |text| >= 5
    case Other(truthy, shown, _) => !truthy || |shown| >= 5
  }

  ghost predicate LinksOn(im: Import, id: string, post: Post) {
    post.supersededBy.Absent? || exists next <- im.snapshot :: post.supersededBy == Text(next) && next != id
  }

  /** One acceptable post, field by field. */
  ghost predicate PostSuffices(policy: ContentPolicy, im: Import, id: string, post: Post) {
    && 1 <= |id| <= 64 && post.payload.Some? && !post.status.Absent? && LinksOn(im, id, post)
    && var p := post.payload.value;
    && |p.body| <= 2000 && policy(id, p) && (p.sourceType.ExternalUntrusted? ==> p.namespace == "plk.quarantine")
    && (post.status == Text("invalidated") && post.supersededBy.Absent? ==> ReasonSuffices(post.reason))
  }

  lemma PostExactly(policy: ContentPolicy, im: Import, id: string)
    requires id in im.snapshot && "" !in im.snapshot
    ensures PostSuffices(policy, im, id, im.snapshot[id]) <==>
              && LinkError(LinksOf(im), id).None?
              && ValidId(id) && im.snapshot[id].payload.Some? && !im.snapshot[id].status.Absent?
              && CreateAllowed(policy, Importer(im), CreateFact(id, im.snapshot[id].payload.value, "shadow import from Git " + im.commit, ReplacedIn(LinksOf(im), id)))
              && (InvalidatedAlone(im.snapshot[id]) ==> |StandaloneReason(im.snapshot[id].reason)| >= 5)
  {
    LinkExactly(im, id);
    hide LinkError, LinksOn, LinksOf, ReplacedIn;
  }

  lemma LinkExactly(im: Import, id: string)
    requires id in im.snapshot && "" !in im.snapshot
    ensures LinkError(LinksOf(im), id).None? <==> LinksOn(im, id, im.snapshot[id])
    ensures LinksOn(im, id, im.snapshot[id]) ==> (Truthy(im.snapshot[id].supersededBy) <==> !im.snapshot[id].supersededBy.Absent?)
  {
  }

  /** A snapshot is acceptable if and only if each of its posts is, and each is listed once. */
  lemma ImportableExactly(policy: ContentPolicy, im: Import)
    ensures Importable(policy, im) <==>
              && Distinct(im.posts) && (forall id :: id in im.posts <==> id in im.snapshot)
              && forall id <- im.snapshot :: PostSuffices(policy, im, id, im.snapshot[id])
  {
    if "" !in im.snapshot {
      forall id <- im.snapshot ensures PostSuffices(policy, im, id, im.snapshot[id]) <==>
              && LinkError(LinksOf(im), id).None?
              && ValidId(id) && im.snapshot[id].payload.Some? && !im.snapshot[id].status.Absent?
              && CreateAllowed(policy, Importer(im), CreateFact(id, im.snapshot[id].payload.value, "shadow import from Git " + im.commit, ReplacedIn(LinksOf(im), id)))
              && (InvalidatedAlone(im.snapshot[id]) ==> |StandaloneReason(im.snapshot[id].reason)| >= 5) {
        PostExactly(policy, im, id);
      }
    } else {
      assert !ValidId("") && !PostSuffices(policy, im, "", im.snapshot[""]);
    }
    hide PostSuffices, LinkError, CreateAllowed, InvalidatedAlone, ValidId, StandaloneReason, ReplacedIn;
  }

  // ---- the calls --------------------------------------------------------------------------

  /** The actor of an import: the first twelve characters of the commit name it, and its roles admit every content. */
  ghost predicate IsImporter(im: Import, actor: Actor) {
    && actor.org == im.org && actor.roles == {"writer", "philosophy:write", "human-authored:write", "shared:write"}
    && |actor.id| <= 30 && "git-shadow-import:" <= actor.id && actor.id[18..] <= im.commit && (|im.commit| >= 12 ==> |actor.id| == 30)
    && (|im.commit| < 12 ==> actor.id[18..] == im.commit)
  }

  /** The calls made for one post: it is created at revision one of everything it replaces, and, on its own, invalidated
      for its reason or the default one; each under a key that names the commit, the post and the operation. */
  lemma CallsExactly(im: Import, id: string, olds: seq<string>)
    requires id in im.snapshot
    ensures var post, create, end := im.snapshot[id], CreateCall(im, id, olds), InvalidateCall(im, id);
            && (create == Err(ValueError) <==> post.payload.None?)
            && (create == Err(ValidationError) <==> post.payload.Some? && (id == "" || |id| > 64))
            && (create.Ok? ==>
                  && create.value.Create? && IsImporter(im, create.value.actor)
                  && create.value.create == CreateFact(id, post.payload.value, "shadow import from Git " + im.commit, olds)
                  && create.value.superseded.Keys == Elements(olds) && (forall older <- olds :: create.value.superseded[older] == 1)
                  && create.value.key == "git-shadow:" + im.commit + ":" + id + ":create")
            && (end == Err(ValidationError) <==> id == "" || |id| > 64 || !ReasonSuffices(post.reason))
            && (end.Ok? ==>
                  && end.value.Invalidate? && IsImporter(im, end.value.actor) && end.value.expected == 1
                  && end.value.invalidate.factId == id
                  && end.value.key == "git-shadow:" + im.commit + ":" + id + ":invalidate"
                  && match post.reason
                     case Text(text) => text != "" ==> end.value.invalidate.reason == text
                     case Other(truthy, shown, _) => truthy ==> end.value.invalidate.reason == shown
                     case Absent => end.value.invalidate.reason == "invalidated in Git snapshot")
  {
    ImporterIs(im);
    assert forall older :: older in olds <==> older in Elements(olds);
    hide Importer, IsImporter;
  }

  lemma ImporterIs(im: Import)
    ensures IsImporter(im, Importer(im))
  {
    var name := if |im.commit| <= 12 then im.commit else im.commit[..12];
    assert ("git-shadow-import:" + name)[18..] == name;
  }

  // ---- the report -------------------------------------------------------------------------

  /** What the Git side holds in a field, and what the database holds there. */
  ghost function InGit(field: Field, post: Post, p: Payload): Value {
    match field
    case KindField => OfKind(p.kind)
    case StatementField => Words(p.statement)
    case WhyField => Words(p.why)
    case HowToApplyField => Words(p.howToApply)
    case SourceField => Words(p.source)
    case SourceTypeField => OfType(p.sourceType)
    case NamespaceField => Words(p.namespace)
    case TagsField => Ids(p.tags)
    case BodyField => Words(p.body)
    case StatusField => (match post.status case Text(text) => Words(text) case Other(_, _, json) => Odd(json) case Absent => Null)
    case ReasonField => (match post.reason case Text(text) => Words(text) case Other(_, _, json) => Odd(json) case Absent => Null)
    case HashField => HashOf(p)
    case SupersedesField => Null
  }

  ghost function InDatabase(field: Field, record: FactRecord): Value {
    match field
    case StatusField => Words(if record.status == Active then "active" else "invalidated")
    case ReasonField => if record.invalidationReason == None then Null else Words(record.invalidationReason.value)
    case _ => InGit(field, Post(None, Absent, Absent, Absent), record.payload)
  }

  /** A comparison reports exactly the fields whose values differ, each with both values. */
  lemma DifferencesAreReported(id: string, post: Post, payload: Payload, record: FactRecord, m: Mismatch)
    ensures m in Differences(id, post, payload, record) <==>
              && m.id == id && m.field != SupersedesField && m.git == InGit(m.field, post, payload) && m.postgres == InDatabase(m.field, record)
              && m.git != m.postgres
  {
    var p := record.payload;
    ComparedExactly(id, KindField, OfKind(payload.kind), OfKind(p.kind), m);
    ComparedExactly(id, StatementField, Words(payload.statement), Words(p.statement), m);
    ComparedExactly(id, WhyField, Words(payload.why), Words(p.why), m);
    ComparedExactly(id, HowToApplyField, Words(payload.howToApply), Words(p.howToApply), m);
    ComparedExactly(id, SourceField, Words(payload.source), Words(p.source), m);
    ComparedExactly(id, SourceTypeField, OfType(payload.sourceType), OfType(p.sourceType), m);
    ComparedExactly(id, NamespaceField, Words(payload.namespace), Words(p.namespace), m);
    ComparedExactly(id, TagsField, Ids(payload.tags), Ids(p.tags), m);
    ComparedExactly(id, BodyField, Words(payload.body), Words(p.body), m);
    ComparedExactly(id, StatusField, RawValue(post.status), Words(StatusText(record.status)), m);
    ComparedExactly(id, ReasonField, RawValue(post.reason), StoredValue(record.invalidationReason), m);
    ComparedExactly(id, HashField, HashOf(payload), HashOf(p), m);
    hide Compared;
  }

  lemma ComparedExactly(id: string, field: Field, git: Value, postgres: Value, m: Mismatch)
    ensures m in Compared(id, field, git, postgres) <==> m == Mismatch(id, field, git, postgres) && git != postgres
  {
  }
}
