/** The Git side of the store: facts as files that are added, superseded and invalidated under one write lock. Whatever
    it writes can be imported, with parity. */
module FactService {
  import opened Domain
  import opened Ordering
  import opened Tables
  import opened StoreInvariant
  import opened StoreRuns
  import opened ImportPlan
  import opened SnapshotImport
  import opened ImportParity

  datatype WriteError = FactError | FactNotFound | WriteConflict
  datatype Edit = Edited(files: map<string, Post>) | Denied(error: WriteError)

  /** A file is its own content hash: the hash is injective. */
  type Files = map<string, Post>

  datatype Addition = Addition(
    id: string, payload: Payload, supersedes: seq<string>, expected: Files, acceptable: bool, pushed: bool)

  /** The rules of the service, besides schema, secret scan and a free path, which acceptable stands for. */
  predicate MayAdd(a: Addition) {
    && a.payload.sourceType != User && a.payload.kind != Philosophy && a.payload.namespace != SHARED
    && (a.payload.sourceType == ExternalUntrusted ==> a.payload.namespace == QUARANTINE)
    && a.acceptable && |a.payload.body| <= 2000
  }

  function NewPost(payload: Payload): Post {
    Post(Some(payload), Text("active"), Absent, Absent)
  }

  function SupersededPost(post: Post, newer: string): Post {
    post.(status := Text("invalidated"), reason := Text(ReplacedBy(newer)), supersededBy := Text(newer))
  }

  /** Every target exists and is, where the caller said so, the very file the caller saw. */
  predicate TargetsHold(files: Files, a: Addition) {
    forall older <- a.supersedes :: older in files && (older in a.expected ==> files[older] == a.expected[older])
  }

  function Added(files: Files, a: Addition): Edit {
    if !MayAdd(a) || !TargetsHold(files, a) then Denied(FactError)
    else if !a.pushed then Denied(WriteConflict)
    else Edited(WithAddition(files, a))
  }

  /** The new file beside its superseded targets; everything else as it was. */
  function WithAddition(files: Files, a: Addition): Files {
    map id <- files.Keys + {a.id} ::
      if id in a.supersedes && id in files then SupersededPost(files[id], a.id)
      else if id == a.id then NewPost(a.payload) else files[id]
  }

  function Ended(files: Files, id: string, reason: string, expected: Option<Post>, pushed: bool): Edit {
    if |Strip(reason)| < 5 then Denied(FactError)
    else if id !in files then Denied(FactNotFound)
    else if files[id].status != Text("active") then Denied(FactError)
    else if expected.Some? && files[id] != expected.value then Denied(FactError)
    else if !pushed then Denied(WriteConflict)
    else Edited(files[id := files[id].(status := Text("invalidated"), reason := Text(reason))])
  }

  /** What the service itself checks of an addition: nothing that only people write, and untrusted content only in the
      quarantine. */
  ghost predicate IsAcceptable(a: Addition) {
    var p := a.payload;
    && a.acceptable && |p.body| <= 2000 && !p.sourceType.User? && !p.kind.Philosophy? && p.namespace != "plk.shared"
    && (p.namespace == "plk.quarantine" || !p.sourceType.ExternalUntrusted?)
  }

  ghost predicate IsAsSeen(files: Files, a: Addition, older: string) {
    older in files && (older !in a.expected || a.expected[older] == files[older])
  }

  /** One new active file; each target invalidated, with the new file as its successor and reason; the rest as it was. */
  ghost predicate AddedTo(files: Files, after: Files, a: Addition) {
    && after.Keys == files.Keys + {a.id} && after[a.id] == Post(Some(a.payload), Text("active"), Absent, Absent)
    && forall id <- files | id != a.id ::
         after[id] == if id in a.supersedes
                      then Post(files[id].payload, Text("invalidated"), Text(a.id), Text("後継ファクト " + a.id + " により置換"))
                      else files[id]
  }

  lemma AddIs(files: Files, a: Addition)
    requires a.id !in files && a.id !in a.supersedes
    ensures Added(files, a).Edited? <==> a.pushed && IsAcceptable(a) && forall older <- a.supersedes :: IsAsSeen(files, a, older)
    ensures Added(files, a).Edited? ==> AddedTo(files, Added(files, a).files, a)
  {
  }

  class FactService {
    var files: Files

    constructor ()
      ensures files == map[]
    {
      files := map[];
    }

    /** Resolves and compares every target before the first write; a failed push leaves no trace. */
    method Add(a: Addition) returns (error: Option<WriteError>)
      requires a.id !in files && a.id !in a.supersedes
      modifies this
      ensures match Added(old(files), a)
              case Denied(e) => error == Some(e) && files == old(files)
              case Edited(after) => error == None && files == after
      ensures error.None? <==> a.pushed && IsAcceptable(a) && forall older <- a.supersedes :: IsAsSeen(old(files), a, older)
      ensures error.None? ==> AddedTo(old(files), files, a)
    {
      AddIs(files, a);
      if a.payload.sourceType == User || a.payload.kind == Philosophy || a.payload.namespace == SHARED {
        return Some(FactError);
      }
      if a.payload.sourceType == ExternalUntrusted && a.payload.namespace != QUARANTINE {
        return Some(FactError);
      }
      if !a.acceptable || |a.payload.body| > 2000 {
        return Some(FactError);
      }
      var targets := Resolve(a);
      if targets.None? {
        return Some(FactError);
      }
      var before := files;
      WriteAll(a, targets.value);
      if !a.pushed {
        files := before;
        return Some(WriteConflict);
      }
      return None;
    }

    /** Reads every target before anything is written; None if one is missing or not the file the caller saw. */
    method Resolve(a: Addition) returns (targets: Option<seq<Post>>)
      ensures targets.Some? <==> TargetsHold(files, a)
      ensures targets.Some? ==> |targets.value| == |a.supersedes|
                                && forall i :: 0 <= i < |a.supersedes| ==> targets.value[i] == files[a.supersedes[i]]
    {
      var found: seq<Post> := [];
      for n := 0 to |a.supersedes|
        invariant |found| == n
        invariant forall i :: 0 <= i < n ==>
                    var older := a.supersedes[i];
                    older in files && found[i] == files[older] && (older in a.expected ==> files[older] == a.expected[older])
      {
        var older := a.supersedes[n];
        if older !in files || (older in a.expected && files[older] != a.expected[older]) {
          return None;
        }
        found := found + [files[older]];
      }
      return Some(found);
    }

    method WriteAll(a: Addition, targets: seq<Post>)
      requires a.id !in files && a.id !in a.supersedes && |targets| == |a.supersedes|
      requires forall i :: 0 <= i < |a.supersedes| ==> a.supersedes[i] in files && targets[i] == files[a.supersedes[i]]
      modifies this
      ensures files == WithAddition(old(files), a)
    {
      ghost var before := files;
      files := files[a.id := NewPost(a.payload)];
      for n := 0 to |targets|
        invariant files == WithAddition(before, a.(supersedes := a.supersedes[..n]))
      {
        assert forall id :: id in a.supersedes[..n + 1] <==> id in a.supersedes[..n] || id == a.supersedes[n];
        files := files[a.supersedes[n] := SupersededPost(targets[n], a.id)];
      }
      assert a.supersedes[..|targets|] == a.supersedes;
    }

    method Invalidate(id: string, reason: string, expected: Option<Post>, pushed: bool) returns (error: Option<WriteError>)
      modifies this
      ensures match Ended(old(files), id, reason, expected, pushed)
              case Denied(e) => error == Some(e) && files == old(files)
              case Edited(after) => error == None && files == after
      ensures error.None? <==>
                && pushed && |Strip(reason)| >= 5 && id in old(files) && old(files)[id].status == Text("active")
                && (expected.Some? ==> old(files)[id] == expected.value)
      ensures error.None? ==> var was := old(files)[id];
                              files == old(files)[id := Post(was.payload, Text("invalidated"), was.supersededBy, Text(reason))]
    {
      if |Strip(reason)| < 5 {
        return Some(FactError);
      }
      if id !in files {
        return Some(FactNotFound);
      }
      var post := files[id];
      if post.status != Text("active") || (expected.Some? && post != expected.value) {
        return Some(FactError);
      }
      if !pushed {
        return Some(WriteConflict);
      }
      files := files[id := post.(status := Text("invalidated"), reason := Text(reason))];
      return None;
    }
  }

  // ---- runs -------------------------------------------------------------------------------

  datatype Write =
    | Add(addition: Addition)
    | Invalidate(id: string, reason: string, expected: Option<Post>, pushed: bool)

  function After(files: Files, w: Write): Files {
    var r := match w
             case Add(a) => if a.id in files || a.id == "" then Denied(FactError) else Added(files, a)
             case Invalidate(id, reason, expected, pushed) => Ended(files, id, reason, expected, pushed);
    if r.Edited? then r.files else files
  }

  function Run(writes: seq<Write>): Files {
    if writes == [] then map[] else After(Run(writes[..|writes| - 1]), writes[|writes| - 1])
  }

  /** The ids in the order their files were made. */
  function Order(writes: seq<Write>): seq<string> {
    if writes == [] then []
    else
      var before := Order(writes[..|writes| - 1]);
      var w := writes[|writes| - 1];
      if w.Add? && w.addition.id !in Run(writes[..|writes| - 1]) && w.addition.id in Run(writes) then before + [w.addition.id] else before
  }

  ghost predicate IsBefore(order: seq<string>, a: string, b: string) {
    exists i, j :: 0 <= i < j < |order| && order[i] == a && order[j] == b
  }

  /** The three shapes a file can have: active, superseded by a file made later, or invalidated on its own. */
  ghost predicate PostOk(files: Files, order: seq<string>, id: string)
    requires id in files
  {
    var post := files[id];
    && post.payload.Some? && id != ""
    && match post.supersededBy
       case Absent => StatusKept(post) && ReasonKept(post)
       case Text(newer) => StatusKept(post) && ReasonKept(post) && newer in files && IsBefore(order, id, newer)
       case Other(_, _, _) => false
  }

  ghost predicate FilesOk(files: Files, order: seq<string>) {
    Distinct(order) && Elements(order) == files.Keys && forall id <- files :: PostOk(files, order, id)
  }

  lemma AddKeepsFiles(files: Files, order: seq<string>, a: Addition)
    requires FilesOk(files, order) && a.id !in files && a.id != "" && Added(files, a).Edited?
    ensures FilesOk(Added(files, a).files, order + [a.id])
  {
    var after, longer := Added(files, a).files, order + [a.id];
    assert Elements(longer) == Elements(order) + {a.id};
    assert forall x <- order :: x in Elements(order);
    hide MayAdd, TargetsHold, PostOk, IsBefore;
    forall id <- after ensures PostOk(after, longer, id) {
      AddKeepsPost(files, order, a, id);
    }
  }

  lemma AddKeepsPost(files: Files, order: seq<string>, a: Addition, id: string)
    requires Elements(order) == files.Keys && (id in files ==> PostOk(files, order, id))
    requires a.id !in files && a.id != "" && MayAdd(a) && id in WithAddition(files, a)
    ensures PostOk(WithAddition(files, a), order + [a.id], id)
  {
    hide IsBefore, Elements;
    if id in files {
      OlderIsBefore(order, a.id, id);
      if files[id].supersededBy.Text? {
        StaysBefore(order, a.id, id, files[id].supersededBy.text);
      }
    }
  }

  lemma OlderIsBefore(order: seq<string>, last: string, id: string)
    requires id in Elements(order)
    ensures IsBefore(order + [last], id, last)
  {
    var i :| 0 <= i < |order| && order[i] == id;
    assert (order + [last])[i] == id && (order + [last])[|order|] == last;
  }

  lemma StaysBefore(order: seq<string>, last: string, a: string, b: string)
    requires IsBefore(order, a, b)
    ensures IsBefore(order + [last], a, b)
  {
    var i, j :| 0 <= i < j < |order| && order[i] == a && order[j] == b;
    assert (order + [last])[i] == a && (order + [last])[j] == b;
  }

  lemma {:induction false} StripsShorter(s: string)
    ensures |Strip(s)| <= |s|
    decreases |s|
  {
    if s != "" {
      if IsSpace(s[0]) {
        StripsShorter(s[1..]);
      } else if IsSpace(s[|s| - 1]) {
        StripsShorter(s[..|s| - 1]);
      }
    }
  }

  lemma EndKeepsFiles(files: Files, order: seq<string>, id: string, reason: string, expected: Option<Post>, pushed: bool)
    requires FilesOk(files, order) && Ended(files, id, reason, expected, pushed).Edited?
    ensures FilesOk(Ended(files, id, reason, expected, pushed).files, order)
  {
    StripsShorter(reason);
    assert PostOk(files, order, id);
    hide Strip, IsBefore;
    forall other <- files ensures PostOk(files[id := files[id].(status := Text("invalidated"), reason := Text(reason))], order, other) {
      assert PostOk(files, order, other);
    }
  }

  lemma {:induction false} RunKeepsFiles(writes: seq<Write>)
    ensures FilesOk(Run(writes), Order(writes))
  {
    hide FilesOk, Added, Ended;
    if writes == [] {
      NoFiles();
    } else {
      var n := |writes| - 1;
      var files, order := Run(writes[..n]), Order(writes[..n]);
      RunKeepsFiles(writes[..n]);
      match writes[n]
      case Add(a) =>
        if a.id !in files && a.id != "" && Added(files, a).Edited? {
          AddKeepsFiles(files, order, a);
          AddMakes(files, a);
        }
      case Invalidate(id, reason, expected, pushed) =>
        if Ended(files, id, reason, expected, pushed).Edited? {
          EndKeepsFiles(files, order, id, reason, expected, pushed);
        }
    }
  }

  lemma NoFiles()
    ensures FilesOk(map[], [])
  {
  }

  lemma AddMakes(files: Files, a: Addition)
    requires Added(files, a).Edited?
    ensures a.id in Added(files, a).files
  {
  }

  // ---- import -----------------------------------------------------------------------------

  lemma PlaceOf(order: seq<string>, a: string, b: string, i: nat, j: nat)
    requires Distinct(order) && IsBefore(order, a, b) && i < |order| && j < |order| && order[i] == a && order[j] == b
    ensures i < j
  {
  }

  lemma {:induction false} WalkMovesOn(files: Files, order: seq<string>, links: Links, walk: seq<string>, n: nat, i: nat, j: nat)
    requires FilesOk(files, order) && links == (map id <- files :: files[id].supersededBy)
    requires IsWalk(links, walk) && 0 < n < |walk| && i < |order| && j < |order| && order[i] == walk[0] && order[j] == walk[n]
    ensures i < j
    decreases n
  {
    assert Replaces(links, walk[n], walk[n - 1]);
    assert walk[n - 1] in walk && PostOk(files, order, walk[n - 1]);
    assert walk[n - 1] in Elements(order);
    var m :| 0 <= m < |order| && order[m] == walk[n - 1];
    PlaceOf(order, walk[n - 1], walk[n], m, j);
    if n > 1 {
      WalkMovesOn(files, order, links, walk, n - 1, i, m);
    }
  }

  /** A store written only through the service can always be ordered for import, and each of its posts has the
      status and the reason that the database will write for it. */
  lemma ServiceFilesAreImportable(writes: seq<Write>, im: Import)
    requires im.snapshot == Run(writes)
    ensures WellLinked(LinksOf(im)) && !HasCycle(LinksOf(im))
    ensures forall id <- im.snapshot :: StatusKept(im.snapshot[id]) && ReasonKept(im.snapshot[id])
  {
    var files, order := Run(writes), Order(writes);
    RunKeepsFiles(writes);
    var links := LinksOf(im);
    forall id <- links ensures LinkError(links, id).None? {
      assert PostOk(files, order, id);
      if files[id].supersededBy.Text? {
        var i, j :| 0 <= i < j < |order| && order[i] == id && order[j] == files[id].supersededBy.text;
      }
    }
    if cycle :| IsCycle(links, cycle) {
      assert cycle[0] in cycle && cycle[0] in Elements(order);
      var i :| 0 <= i < |order| && order[i] == cycle[0];
      WalkMovesOn(files, order, links, cycle, |cycle| - 1, i, i);
    }
  }

  /** So its import into a new organization, if the database policy admits the facts, reports parity. */
  lemma ServiceFilesImportWithParity(policy: ContentPolicy, writes: seq<Write>, im: Import, t: Tables, order: seq<string>)
    requires im.snapshot == Run(writes)
    requires Importable(policy, im) && Inv(t) && Open(t) && NewOrganization(t, im.org) && IsOrder(LinksOf(im), order)
    ensures (forall id <- order :: id in im.snapshot) && (forall id <- im.posts :: id in im.snapshot)
    ensures var (u, error) := Calls(policy, t, ImportCalls(im, order));
            error.None? && HeadsHaveRevisions(u) && Parity(u, im, im.posts) == Ok([])
  {
    ServiceFilesAreImportable(writes, im);
    hide Importable, Inv, Open, NewOrganization, IsOrder, WellLinked, HasCycle, ReasonKept;
    var u := ImportReportsExactly(policy, im, t, order);
  }
}
