/** Search: the graph proposes candidates, the database decides what is shown. */
module Search {
  import opened Domain
  import opened Ordering
  import opened Tables
  import opened Repository
  import opened Outbox
  import opened Projection

  /** The id of an edge or episode of the graph: one that was seeded by the index, or any other. */
  datatype EdgeId = Seeded(ref: Ref) | Foreign(name: string)

  datatype Edge = Edge(uuid: EdgeId, episodes: seq<EdgeId>, text: string, score: Option<real>)
  datatype Hit = Hit(factId: string, text: string, score: Option<real>)
  datatype Candidate = Candidate(factId: string, indexedRevision: nat, score: Option<real>)

  type Attribution = map<EdgeId, string>

  /** The fact an edge is about: by its own id, else by the first of its episodes that is known. */
  function FactOf(known: Attribution, edge: Edge): Option<string> {
    if edge.uuid in known then Some(known[edge.uuid]) else FirstKnown(known, edge.episodes)
  }

  function FirstKnown(known: Attribution, ids: seq<EdgeId>): Option<string> {
    if ids == [] then None else if ids[0] in known then Some(known[ids[0]]) else FirstKnown(known, ids[1..])
  }

  predicate Names(hits: seq<Hit>, id: string) {
    exists h <- hits :: h.factId == id
  }

  /** One hit per fact, at its first edge. */
  function Resolved(known: Attribution, edges: seq<Edge>): seq<Hit> {
    if edges == [] then []
    else
      var before, last := Resolved(known, edges[..|edges| - 1]), edges[|edges| - 1];
      var id := FactOf(known, last);
      if id.None? || Names(before, id.value) then before else before + [Hit(id.value, last.text, last.score)]
  }

  /** The loops below add before they test the limit, so they always take one. */
  function Take<T>(q: seq<T>, limit: int): seq<T> {
    var n := if limit < 1 then 1 else limit;
    if |q| <= n then q else q[..n]
  }

  lemma {:induction false} ResolvedGrows(known: Attribution, edges: seq<Edge>, n: nat)
    requires n <= |edges|
    ensures Resolved(known, edges[..n]) <= Resolved(known, edges)
    decreases |edges| - n
  {
    if n == |edges| {
      assert edges[..n] == edges;
    } else {
      assert edges[..n + 1][..n] == edges[..n];
      ResolvedGrows(known, edges, n + 1);
    }
  }

  method AttributeEdge(known: Attribution, edge: Edge) returns (id: Option<string>)
    ensures id == FactOf(known, edge)
  {
    if edge.uuid in known {
      return Some(known[edge.uuid]);
    }
    for n := 0 to |edge.episodes|
      invariant FirstKnown(known, edge.episodes) == FirstKnown(known, edge.episodes[n..])
    {
      if edge.episodes[n] in known {
        return Some(known[edge.episodes[n]]);
      }
    }
    return None;
  }

  lemma NamesMore(hits: seq<Hit>, hit: Hit)
    ensures forall id :: Names(hits + [hit], id) <==> Names(hits, id) || id == hit.factId
  {
    assert forall h :: h in hits + [hit] <==> h in hits || h == hit;
    forall id ensures Names(hits + [hit], id) <==> Names(hits, id) || id == hit.factId {
      if id == hit.factId {
        assert hit in hits + [hit];
      }
    }
  }

  lemma NoNames()
    ensures forall id :: !Names([], id)
  {
  }

  method ResolveHits(known: Attribution, edges: seq<Edge>, limit: int) returns (hits: seq<Hit>)
    ensures hits == Take(Resolved(known, edges), limit)
  {
    hide FactOf, Names;
    hits := [];
    var seen: set<string> := {};
    NoNames();
    for n := 0 to |edges|
      invariant hits == Resolved(known, edges[..n])
      invariant forall id :: id in seen <==> Names(hits, id)
      invariant hits == [] || |hits| < limit
    {
      assert edges[..n + 1][..n] == edges[..n];
      var id := AttributeEdge(known, edges[n]);
      if id.Some? && id.value !in seen {
        var hit := Hit(id.value, edges[n].text, edges[n].score);
        NamesMore(hits, hit);
        seen := seen + {id.value};
        hits := hits + [hit];
        if |hits| >= limit {
          ResolvedGrows(known, edges, n + 1);
          return;
        }
      }
    }
    assert edges[..|edges|] == edges;
  }

  lemma {:induction false} ResolvedOnce(known: Attribution, edges: seq<Edge>)
    ensures forall i, j :: 0 <= i < j < |Resolved(known, edges)| ==> Resolved(known, edges)[i].factId != Resolved(known, edges)[j].factId
    ensures forall h <- Resolved(known, edges) :: exists e <- edges :: FactOf(known, e) == Some(h.factId)
    ensures forall e <- edges :: FactOf(known, e).Some? ==> Names(Resolved(known, edges), FactOf(known, e).value)
  {
    if edges != [] {
      var n := |edges| - 1;
      ResolvedOnce(known, edges[..n]);
      var before, id := Resolved(known, edges[..n]), FactOf(known, edges[n]);
      assert forall e :: e in edges <==> e in edges[..n] || e == edges[n];
      if id.Some? && !Names(before, id.value) {
        var hit := Hit(id.value, edges[n].text, edges[n].score);
        assert forall h :: h in before + [hit] <==> h in before || h == hit;
        assert Names(before + [hit], id.value) by {
          assert hit in before + [hit];
        }
        forall other | Names(before, other) ensures Names(before + [hit], other) {
          var h :| h in before && h.factId == other;
          assert h in before + [hit];
        }
      }
    }
  }

  // ---- candidates -------------------------------------------------------------------------

  /** known holds the refs of the organization's checkpoints, each for a fact that lists it. */
  ghost predicate AttributionOf(checkpoints: map<FactKey, Checkpoint>, org: OrgId, known: Attribution) {
    && (forall f <- checkpoints :: f.org == org ==> forall ref <- checkpoints[f].refs :: Seeded(ref) in known)
    && (forall e <- known :: e.Seeded? && Lists(checkpoints, FactKey(org, known[e]), e.ref))
  }

  ghost predicate Lists(checkpoints: map<FactKey, Checkpoint>, f: FactKey, ref: Ref) {
    f in checkpoints && ref in checkpoints[f].refs
  }

  /** What every checkpoint of a reachable world satisfies. */
  ghost predicate OwnRefs(checkpoints: map<FactKey, Checkpoint>) {
    forall f <- checkpoints, ref <- checkpoints[f].refs :: ref.fact == f && ref.revision == checkpoints[f].version
  }

  method AddRefs(known: Attribution, refs: seq<Ref>, id: string) returns (more: Attribution)
    ensures forall e :: e in more <==> e in known || (e.Seeded? && e.ref in refs)
    ensures forall e <- more :: more[e] == if e.Seeded? && e.ref in refs then id else known[e]
  {
    more := known;
    for n := 0 to |refs|
      invariant forall e :: e in more <==> e in known || (e.Seeded? && e.ref in refs[..n])
      invariant forall e <- more :: more[e] == if e.Seeded? && e.ref in refs[..n] then id else known[e]
    {
      assert forall ref :: ref in refs[..n + 1] <==> ref in refs[..n] || ref == refs[n];
      more := more[Seeded(refs[n]) := id];
    }
    assert refs[..|refs|] == refs;
  }

  method Attribute(checkpoints: map<FactKey, Checkpoint>, org: OrgId) returns (known: Attribution)
    ensures AttributionOf(checkpoints, org, known)
  {
    known := map[];
    var rows := set f <- checkpoints | f.org == org;
    var rest := rows;
    while rest != {}
      invariant rest <= rows
      invariant forall f <- rows - rest :: forall ref <- checkpoints[f].refs :: Seeded(ref) in known
      invariant forall e <- known :: e.Seeded? && Lists(checkpoints, FactKey(org, known[e]), e.ref)
      decreases |rest|
    {
      var f :| f in rest;
      rest := rest - {f};
      assert f == FactKey(org, f.id);
      known := AddRefs(known, checkpoints[f].refs, f.id);
    }
  }

  /** The groups a query looks into, each once and in order. */
  function Groups(g: GraphSettings, domains: seq<string>, namespaces: seq<string>): set<string> {
    if namespaces != [] then set n <- namespaces :: g.groupFor(n)
    else (set d <- domains :: g.groupFor(DOMAIN_PREFIX + d)) + {g.groupFor(SHARED)}
  }

  /** What the graph answers for one group. It may be stale, orphaned or about nothing that is known. */
  type Backend = Partition -> seq<Edge>

  function EdgesIn(backend: Backend, org: OrgId, groups: seq<string>): seq<Edge> {
    if groups == [] then [] else EdgesIn(backend, org, groups[..|groups| - 1]) + backend(Partition(org, groups[|groups| - 1]))
  }

  function CandidatesOf(checkpoints: map<FactKey, Checkpoint>, org: OrgId, hits: seq<Hit>): seq<Candidate> {
    if hits == [] then []
    else
      var last := hits[|hits| - 1];
      CandidatesOf(checkpoints, org, hits[..|hits| - 1])
      + if FactKey(org, last.factId) in checkpoints
        then [Candidate(last.factId, checkpoints[FactKey(org, last.factId)].version, last.score)] else []
  }

  method CollectEdges(backend: Backend, org: OrgId, groups: seq<string>) returns (edges: seq<Edge>)
    ensures edges == EdgesIn(backend, org, groups)
  {
    edges := [];
    for n := 0 to |groups|
      invariant edges == EdgesIn(backend, org, groups[..n])
    {
      assert groups[..n + 1][..n] == groups[..n];
      edges := edges + backend(Partition(org, groups[n]));
    }
    assert groups[..|groups|] == groups;
  }

  method ToCandidates(checkpoints: map<FactKey, Checkpoint>, org: OrgId, hits: seq<Hit>) returns (candidates: seq<Candidate>)
    ensures candidates == CandidatesOf(checkpoints, org, hits)
  {
    candidates := [];
    for n := 0 to |hits|
      invariant candidates == CandidatesOf(checkpoints, org, hits[..n])
    {
      assert hits[..n + 1][..n] == hits[..n];
      var f := FactKey(org, hits[n].factId);
      if f in checkpoints {
        candidates := candidates + [Candidate(hits[n].factId, checkpoints[f].version, hits[n].score)];
      }
    }
    assert hits[..|hits|] == hits;
  }

  /** The candidates of the index: at most one per fact of the organization, whatever the graph answers. */
  method SearchIndex(g: GraphSettings, domains: seq<string>, checkpoints: map<FactKey, Checkpoint>, org: OrgId,
                     namespaces: seq<string>, limit: int, backend: Backend)
    returns (candidates: seq<Candidate>, ghost known: Attribution)
    ensures AttributionOf(checkpoints, org, known)
    ensures candidates == CandidatesOf(checkpoints, org,
                            Take(Resolved(known, EdgesIn(backend, org, Sorted(Groups(g, domains, namespaces)))), limit))
  {
    hide AttributionOf, Resolved;
    var byRef := Attribute(checkpoints, org);
    known := byRef;
    var groups := Sort(Groups(g, domains, namespaces));
    var edges := CollectEdges(backend, org, groups);
    var hits := ResolveHits(byRef, edges, limit);
    candidates := ToCandidates(checkpoints, org, hits);
  }

  lemma {:induction false} FirstKnownIs(known: Attribution, ids: seq<EdgeId>)
    requires FirstKnown(known, ids).Some?
    ensures exists e <- ids :: e in known && known[e] == FirstKnown(known, ids).value
  {
    if ids[0] !in known {
      FirstKnownIs(known, ids[1..]);
    }
  }

  /** An edge is only ever attributed to a fact of the caller's organization that lists its id, or one of its
      episodes, as a ref of its own. */
  lemma AttributionIsOwn(checkpoints: map<FactKey, Checkpoint>, org: OrgId, known: Attribution, edge: Edge)
    requires AttributionOf(checkpoints, org, known) && OwnRefs(checkpoints) && FactOf(known, edge).Some?
    ensures exists e <- [edge.uuid] + edge.episodes ::
              && e.Seeded? && e.ref.fact == FactKey(org, FactOf(known, edge).value)
              && Lists(checkpoints, e.ref.fact, e.ref)
  {
    if edge.uuid in known {
      assert edge.uuid in [edge.uuid] + edge.episodes;
    } else {
      FirstKnownIs(known, edge.episodes);
      var e :| e in edge.episodes && e in known && known[e] == FirstKnown(known, edge.episodes).value;
      assert e in [edge.uuid] + edge.episodes;
    }
  }

  /** Reachable worlds have checkpoints whose refs are their own. */
  lemma CheckpointsListOwnRefs(g: GraphSettings, w: World)
    requires CheckpointsOk(g, w)
    ensures OwnRefs(w.checkpoints)
  {
    forall f <- w.checkpoints, ref <- w.checkpoints[f].refs ensures ref.fact == f && ref.revision == w.checkpoints[f].version {
      assert IsEntry(g, w.tables, f, w.checkpoints[f]);
    }
  }

  // ---- what is shown ----------------------------------------------------------------------

  datatype Filters = Filters(namespaces: seq<string>, kind: Option<Kind>, status: Option<Status>)

  datatype SearchHit = SearchHit(
    factId: string, statement: string, namespace: string, kind: Kind, status: Status, createdAt: Time, revision: nat, score: Option<real>)

  predicate Visible(filters: Filters, r: FactRecord) {
    var p := r.payload;
    && (p.namespace == QUARANTINE ==> QUARANTINE in filters.namespaces)
    && (filters.namespaces != [] ==> p.namespace in filters.namespaces)
    && (filters.kind.Some? ==> p.kind == filters.kind.value)
    && (filters.status.Some? ==> r.status == filters.status.value)
  }

  function HitOf(r: FactRecord, score: Option<real>): SearchHit {
    SearchHit(r.key.id, r.payload.statement, r.payload.namespace, r.payload.kind, r.status, r.createdAt, r.revision, score)
  }

  /** The candidate is a stored fact of the organization, visible under the filters as it is stored now. */
  predicate Shows(t: Tables, org: OrgId, filters: Filters, c: Candidate)
    requires HeadsHaveRevisions(t)
  {
    var r := GetFact(t, FactKey(org, c.factId));
    r.Ok? && Visible(filters, r.value)
  }

  function Shown(t: Tables, org: OrgId, filters: Filters, candidates: seq<Candidate>): seq<SearchHit>
    requires HeadsHaveRevisions(t)
  {
    if candidates == [] then []
    else
      var last := candidates[|candidates| - 1];
      Shown(t, org, filters, candidates[..|candidates| - 1])
      + if Shows(t, org, filters, last) then [HitOf(GetFact(t, FactKey(org, last.factId)).value, last.score)] else []
  }

  lemma {:induction false} ShownGrows(t: Tables, org: OrgId, filters: Filters, candidates: seq<Candidate>, n: nat)
    requires HeadsHaveRevisions(t) && n <= |candidates|
    ensures Shown(t, org, filters, candidates[..n]) <= Shown(t, org, filters, candidates)
    decreases |candidates| - n
  {
    hide Shows;
    if n == |candidates| {
      assert candidates[..n] == candidates;
    } else {
      assert candidates[..n + 1][..n] == candidates[..n];
      ShownGrows(t, org, filters, candidates, n + 1);
    }
  }

  lemma ShowsStored(t: Tables, org: OrgId, filters: Filters, c: Candidate)
    requires HeadsHaveRevisions(t)
    ensures GetFact(t, FactKey(org, c.factId)).Ok? <==> FactKey(org, c.factId) in t.heads
    ensures Shows(t, org, filters, c) <==>
              GetFact(t, FactKey(org, c.factId)).Ok? && Visible(filters, GetFact(t, FactKey(org, c.factId)).value)
  {
  }

  class KnowledgeApplication {
    const repository: FactRepository

    constructor (repository: FactRepository)
      ensures this.repository == repository
    {
      this.repository := repository;
    }

    method GetMany(org: OrgId, ids: seq<string>) returns (records: map<string, FactRecord>)
      requires HeadsHaveRevisions(repository.database.Snapshot())
      ensures forall id :: id in records <==> id in ids && FactKey(org, id) in repository.database.heads
      ensures forall id <- records :: GetFact(repository.database.Snapshot(), FactKey(org, id)) == Ok(records[id])
    {
      records := map[];
      for n := 0 to |ids|
        invariant forall id :: id in records <==> id in ids[..n] && FactKey(org, id) in repository.database.heads
        invariant forall id <- records :: GetFact(repository.database.Snapshot(), FactKey(org, id)) == Ok(records[id])
      {
        assert forall id :: id in ids[..n + 1] <==> id in ids[..n] || id == ids[n];
        var r := repository.Get(FactKey(org, ids[n]));
        if r.Ok? {
          records := records[ids[n] := r.value];
        }
      }
      assert ids[..|ids|] == ids;
    }

    /** Shows candidates from their stored records only, until there are enough. */
    method Rehydrate(org: OrgId, filters: Filters, candidates: seq<Candidate>, limit: int) returns (hits: seq<SearchHit>)
      requires HeadsHaveRevisions(repository.database.Snapshot())
      ensures hits == Take(Shown(repository.database.Snapshot(), org, filters, candidates), limit)
    {
      ghost var t := repository.database.Snapshot();
      var ids := seq(|candidates|, i requires 0 <= i < |candidates| => candidates[i].factId);
      var records := GetMany(org, ids);
      hide HeadsHaveRevisions, Visible, GetFact, HitOf;
      hits := [];
      for n := 0 to |candidates|
        invariant hits == Shown(t, org, filters, candidates[..n])
        invariant hits == [] || |hits| < limit
      {
        assert candidates[..n + 1][..n] == candidates[..n];
        var id := candidates[n].factId;
        assert ids[n] == id;
        ShowsStored(t, org, filters, candidates[n]);
        hide Shows;
        if id in records && Visible(filters, records[id]) {
          hits := hits + [HitOf(records[id], candidates[n].score)];
          if |hits| >= limit {
            ShownGrows(t, org, filters, candidates, n + 1);
            return;
          }
        }
      }
      assert candidates[..|candidates|] == candidates;
    }

    method ToolSearch(g: GraphSettings, domains: seq<string>, checkpoints: map<FactKey, Checkpoint>, org: OrgId,
                      filters: Filters, limit: int, backend: Backend)
      returns (hits: seq<SearchHit>, ghost known: Attribution, ghost candidates: seq<Candidate>)
      requires HeadsHaveRevisions(repository.database.Snapshot())
      ensures AttributionOf(checkpoints, org, known)
      ensures candidates == CandidatesOf(checkpoints, org,
                              Take(Resolved(known, EdgesIn(backend, org, Sorted(Groups(g, domains, filters.namespaces)))), PoolOf(limit)))
      ensures hits == Take(Shown(repository.database.Snapshot(), org, filters, candidates), limit)
      ensures limit >= 1 ==>
                && |hits| <= limit
                && (forall h <- hits :: IsRow(repository.database.Snapshot(), org, filters, h))
                && (|candidates| <= limit ==>
                      forall c <- candidates :: Meets(repository.database.Snapshot(), FactKey(org, c.factId), filters) ==>
                                                  exists h <- hits :: h.factId == c.factId)
    {
      var pool := PoolOf(limit);
      var found;
      found, known := SearchIndex(g, domains, checkpoints, org, filters.namespaces, pool, backend);
      candidates := found;
      hits := Rehydrate(org, filters, found, limit);
      if limit >= 1 {
        EnoughForAll(repository.database.Snapshot(), org, filters, candidates, limit);
      }
    }
  }

  /** More candidates than hits, since the database will discard some. */
  function PoolOf(limit: int): (pool: int)
    ensures 50 <= pool <= 1000 && (0 < limit <= 1000 ==> limit <= pool) && (10 <= limit <= 200 ==> pool == limit * 5)
  {
    var wanted := if limit * 5 < 50 then 50 else limit * 5;
    if wanted > 1000 then 1000 else wanted
  }

  // ---- what a search returns --------------------------------------------------------------

  /** at lists, in order, the candidates that are shown: all visible ones before the last, and up to the limit. */
  ghost predicate IsSelection(t: Tables, org: OrgId, filters: Filters, candidates: seq<Candidate>, limit: int,
                              hits: seq<SearchHit>, at: seq<nat>)
    requires HeadsHaveRevisions(t)
  {
    && |at| == |hits|
    && (forall k :: 0 <= k < |at| ==> at[k] < |candidates| && Shows(t, org, filters, candidates[at[k]])
                                      && hits[k] == HitOf(GetFact(t, FactKey(org, candidates[at[k]].factId)).value, candidates[at[k]].score))
    && (forall j, k :: 0 <= j < k < |at| ==> at[j] < at[k])
    && (forall i :: 0 <= i < |candidates| && Shows(t, org, filters, candidates[i]) && i !in at ==>
                      |at| >= 1 && |at| >= limit && at[|at| - 1] < i)
  }

  /** at lists, in order, all candidates that are shown. */
  ghost predicate IsAllShown(t: Tables, org: OrgId, filters: Filters, candidates: seq<Candidate>, hits: seq<SearchHit>, at: seq<nat>)
    requires HeadsHaveRevisions(t)
  {
    && |at| == |hits|
    && (forall k :: 0 <= k < |at| ==> at[k] < |candidates| && Shows(t, org, filters, candidates[at[k]])
                                      && hits[k] == HitOf(GetFact(t, FactKey(org, candidates[at[k]].factId)).value, candidates[at[k]].score))
    && (forall j, k :: 0 <= j < k < |at| ==> at[j] < at[k])
    && (forall i :: 0 <= i < |candidates| && Shows(t, org, filters, candidates[i]) ==> i in at)
  }

  lemma OneMoreShown(t: Tables, org: OrgId, filters: Filters, candidates: seq<Candidate>, c: Candidate, hits: seq<SearchHit>, at: seq<nat>)
    requires HeadsHaveRevisions(t) && IsAllShown(t, org, filters, candidates, hits, at)
    ensures Shows(t, org, filters, c) ==>
              IsAllShown(t, org, filters, candidates + [c], hits + [HitOf(GetFact(t, FactKey(org, c.factId)).value, c.score)], at + [|candidates|])
    ensures !Shows(t, org, filters, c) ==> IsAllShown(t, org, filters, candidates + [c], hits, at)
  {
    hide HeadsHaveRevisions, Shows, GetFact, HitOf;
    var n := |candidates|;
    assert forall i :: 0 <= i < n ==> (candidates + [c])[i] == candidates[i];
    assert forall i :: i in at + [n] <==> i in at || i == n;
  }

  lemma {:induction false} ShownIsAll(t: Tables, org: OrgId, filters: Filters, candidates: seq<Candidate>) returns (at: seq<nat>)
    requires HeadsHaveRevisions(t)
    ensures IsAllShown(t, org, filters, candidates, Shown(t, org, filters, candidates), at)
  {
    hide HeadsHaveRevisions, Shows, GetFact, HitOf;
    if candidates == [] {
      at := [];
    } else {
      var n := |candidates| - 1;
      at := ShownIsAll(t, org, filters, candidates[..n]);
      OneMoreShown(t, org, filters, candidates[..n], candidates[n], Shown(t, org, filters, candidates[..n]), at);
      assert candidates == candidates[..n] + [candidates[n]];
      hide IsAllShown;
      if Shows(t, org, filters, candidates[n]) {
        at := at + [n];
      } else {
        assert Shown(t, org, filters, candidates[..n]) + [] == Shown(t, org, filters, candidates[..n]);
      }
    }
  }

  /** The hits of a search are exactly the first visible candidates, up to the limit, in candidate order, with the
      fields the database holds now. */
  lemma SearchRefinesDatabase(t: Tables, org: OrgId, filters: Filters, candidates: seq<Candidate>, limit: int) returns (at: seq<nat>)
    requires HeadsHaveRevisions(t) && limit >= 1
    ensures IsSelection(t, org, filters, candidates, limit, Take(Shown(t, org, filters, candidates), limit), at)
    ensures |at| <= limit
  {
    hide HeadsHaveRevisions, Shows, Shown, IsAllShown, IsSelection;
    var all := ShownIsAll(t, org, filters, candidates);
    at := Take(all, limit);
    FirstAreSelected(t, org, filters, candidates, limit, Shown(t, org, filters, candidates), all);
  }

  lemma FirstAreSelected(t: Tables, org: OrgId, filters: Filters, candidates: seq<Candidate>, limit: int, hits: seq<SearchHit>, all: seq<nat>)
    requires HeadsHaveRevisions(t) && limit >= 1 && IsAllShown(t, org, filters, candidates, hits, all)
    ensures IsSelection(t, org, filters, candidates, limit, Take(hits, limit), Take(all, limit))
  {
    hide HeadsHaveRevisions, Shows, GetFact, HitOf;
    var at := Take(all, limit);
    assert at == all[..|at|];
    forall i | 0 <= i < |candidates| && Shows(t, org, filters, candidates[i]) && i !in at ensures |at| >= limit && at[|at| - 1] < i {
      assert i in all;
      var k :| 0 <= k < |all| && all[k] == i;
      assert k >= |at|;
      assert all[|at| - 1] < all[k];
    }
  }

  ghost predicate DistinctHits(hits: seq<Hit>) {
    forall i, j :: 0 <= i < j < |hits| ==> hits[i].factId != hits[j].factId
  }

  ghost predicate DistinctCandidates(candidates: seq<Candidate>) {
    forall i, j :: 0 <= i < j < |candidates| ==> candidates[i].factId != candidates[j].factId
  }

  lemma {:induction false} CandidatesAreHits(checkpoints: map<FactKey, Checkpoint>, org: OrgId, hits: seq<Hit>)
    requires DistinctHits(hits)
    ensures DistinctCandidates(CandidatesOf(checkpoints, org, hits))
    ensures forall c <- CandidatesOf(checkpoints, org, hits) ::
              && FactKey(org, c.factId) in checkpoints && c.indexedRevision == checkpoints[FactKey(org, c.factId)].version
              && Names(hits, c.factId)
  {
    if hits != [] {
      var n := |hits| - 1;
      CandidatesAreHits(checkpoints, org, hits[..n]);
      assert hits == hits[..n] + [hits[n]];
      NamesMore(hits[..n], hits[n]);
      forall c <- CandidatesOf(checkpoints, org, hits[..n]) ensures c.factId != hits[n].factId {
        var h :| h in hits[..n] && h.factId == c.factId;
      }
      hide Names;
    }
  }

  /** Whatever the graph answers, no fact is shown twice, and everything shown is a stored fact of the caller's
      organization, as it is stored now. */
  lemma ShownOnceAndCurrent(t: Tables, checkpoints: map<FactKey, Checkpoint>, org: OrgId, filters: Filters, known: Attribution,
                            edges: seq<Edge>, pool: int, limit: int)
    requires HeadsHaveRevisions(t) && limit >= 1
    ensures var hits := Take(Shown(t, org, filters, CandidatesOf(checkpoints, org, Take(Resolved(known, edges), pool))), limit);
            && (forall i, j :: 0 <= i < j < |hits| ==> hits[i].factId != hits[j].factId)
            && (forall h <- hits ::
                  && var r := GetFact(t, FactKey(org, h.factId));
                  && r.Ok? && Visible(filters, r.value) && h == HitOf(r.value, h.score) && r.value.key.org == org)
  {
    hide HeadsHaveRevisions, Visible, Shown, CandidatesOf, Resolved, Take, IsSelection;
    var candidates := CandidatesOf(checkpoints, org, Take(Resolved(known, edges), pool));
    CandidatesAreDistinct(checkpoints, org, known, edges, pool);
    var at := SearchRefinesDatabase(t, org, filters, candidates, limit);
    SelectedOnce(t, org, filters, candidates, limit, Take(Shown(t, org, filters, candidates), limit), at);
  }

  lemma CandidatesAreDistinct(checkpoints: map<FactKey, Checkpoint>, org: OrgId, known: Attribution, edges: seq<Edge>, pool: int)
    ensures DistinctCandidates(CandidatesOf(checkpoints, org, Take(Resolved(known, edges), pool)))
  {
    hide CandidatesOf, Resolved;
    ResolvedOnce(known, edges);
    CandidatesAreHits(checkpoints, org, Take(Resolved(known, edges), pool));
  }

  lemma SelectedOnce(t: Tables, org: OrgId, filters: Filters, candidates: seq<Candidate>, limit: int, hits: seq<SearchHit>, at: seq<nat>)
    requires HeadsHaveRevisions(t) && IsSelection(t, org, filters, candidates, limit, hits, at) && DistinctCandidates(candidates)
    ensures forall i, j :: 0 <= i < j < |hits| ==> hits[i].factId != hits[j].factId
    ensures forall h <- hits ::
              && var r := GetFact(t, FactKey(org, h.factId));
              && r.Ok? && Visible(filters, r.value) && h == HitOf(r.value, h.score) && r.value.key.org == org
  {
    hide HeadsHaveRevisions, Visible;
    forall k | 0 <= k < |hits|
      ensures hits[k].factId == candidates[at[k]].factId && Shows(t, org, filters, candidates[at[k]])
      ensures hits[k] == HitOf(GetFact(t, FactKey(org, hits[k].factId)).value, hits[k].score)
    {
    }
  }

  // ---- the filters, row by row ------------------------------------------------------------

  /** A hit shows the columns its fact has now, and its fact meets every filter now; a quarantined one only if the
      quarantine was asked for. */
  ghost predicate IsRow(t: Tables, org: OrgId, filters: Filters, h: SearchHit) {
    var f := FactKey(org, h.factId);
    && f in t.heads && t.heads[f].currentRevision in t.revisions
    && var head, row := t.heads[f], t.revisions[t.heads[f].currentRevision];
    && h.statement == row.payload.statement && h.namespace == row.payload.namespace && h.kind == row.payload.kind
    && h.status == head.status && h.createdAt == head.createdAt && h.revision == head.currentVersion
    && (filters.status.Some? ==> head.status == filters.status.value)
    && (filters.kind.Some? ==> row.payload.kind == filters.kind.value)
    && (filters.namespaces != [] ==> row.payload.namespace in filters.namespaces)
    && (row.payload.namespace == "plk.quarantine" ==> "plk.quarantine" in filters.namespaces)
  }

  /** A fact whose columns meet every filter now. */
  ghost predicate Meets(t: Tables, f: FactKey, filters: Filters) {
    && f in t.heads && t.heads[f].currentRevision in t.revisions
    && var head, p := t.heads[f], t.revisions[t.heads[f].currentRevision].payload;
    && (filters.status == None || filters.status == Some(head.status))
    && (filters.kind == None || filters.kind == Some(p.kind))
    && (filters.namespaces == [] || p.namespace in filters.namespaces)
    && (p.namespace != "plk.quarantine" || "plk.quarantine" in filters.namespaces)
  }

  lemma ShowsExactly(t: Tables, org: OrgId, filters: Filters, c: Candidate)
    requires HeadsHaveRevisions(t)
    ensures Shows(t, org, filters, c) <==> Meets(t, FactKey(org, c.factId), filters)
    ensures Shows(t, org, filters, c) ==>
              var h := HitOf(GetFact(t, FactKey(org, c.factId)).value, c.score);
              IsRow(t, org, filters, h) && h.factId == c.factId && h.score == c.score
  {
  }

  /** The hits of a search, read off the rows of the database: every hit is the row of a candidate that meets the
      filters, with its score, in candidate order; and of the candidates that meet them none is missing unless there are
      already as many hits as asked for, all of earlier candidates. */
  lemma HitsAreRows(t: Tables, org: OrgId, filters: Filters, candidates: seq<Candidate>, limit: int)
    requires HeadsHaveRevisions(t) && limit >= 1
    ensures var hits := Take(Shown(t, org, filters, candidates), limit);
            && |hits| <= limit
            && (forall h <- hits :: IsRow(t, org, filters, h) && exists c <- candidates :: c.factId == h.factId && c.score == h.score)
            && (forall i :: 0 <= i < |candidates| && Meets(t, FactKey(org, candidates[i].factId), filters) ==>
                              || (exists h <- hits :: h.factId == candidates[i].factId)
                              || (|hits| == limit && forall h <- hits :: exists j :: 0 <= j < i && candidates[j].factId == h.factId))
  {
    hide HeadsHaveRevisions, Shown, Visible, HitOf, GetFact, Shows, IsRow, Meets, Take;
    var hits := Take(Shown(t, org, filters, candidates), limit);
    var at := SearchRefinesDatabase(t, org, filters, candidates, limit);
    forall i | 0 <= i < |candidates| ensures Shows(t, org, filters, candidates[i]) <==> Meets(t, FactKey(org, candidates[i].factId), filters) {
      ShowsExactly(t, org, filters, candidates[i]);
    }
    forall k | 0 <= k < |hits|
      ensures at[k] < |candidates| && hits[k].factId == candidates[at[k]].factId && hits[k].score == candidates[at[k]].score
      ensures IsRow(t, org, filters, hits[k])
    {
      ShowsExactly(t, org, filters, candidates[at[k]]);
    }
    forall i | 0 <= i < |candidates| && Meets(t, FactKey(org, candidates[i].factId), filters)
      ensures || (exists h <- hits :: h.factId == candidates[i].factId)
              || (|hits| == limit && forall h <- hits :: exists j :: 0 <= j < i && candidates[j].factId == h.factId)
    {
      if i in at {
        var k :| 0 <= k < |at| && at[k] == i;
        assert hits[k] in hits;
      } else {
        forall h <- hits ensures exists j :: 0 <= j < i && candidates[j].factId == h.factId {
          var k :| 0 <= k < |hits| && hits[k] == h;
          assert at[k] <= at[|at| - 1] < i;
        }
      }
    }
  }

  /** With no more candidates than asked for, every one that meets the filters is shown. */
  lemma EnoughForAll(t: Tables, org: OrgId, filters: Filters, candidates: seq<Candidate>, limit: int)
    requires HeadsHaveRevisions(t) && limit >= 1
    ensures var hits := Take(Shown(t, org, filters, candidates), limit);
            && |hits| <= limit && (forall h <- hits :: IsRow(t, org, filters, h))
            && (|candidates| <= limit ==>
                  forall c <- candidates :: Meets(t, FactKey(org, c.factId), filters) ==> exists h <- hits :: h.factId == c.factId)
  {
    HitsAreRows(t, org, filters, candidates, limit);
    hide HeadsHaveRevisions, Shown, IsRow, Meets, Take, Shows, GetFact, HitOf;
    var hits := Take(Shown(t, org, filters, candidates), limit);
    forall c <- candidates | |candidates| <= limit && Meets(t, FactKey(org, c.factId), filters) ensures exists h <- hits :: h.factId == c.factId {
      var i :| 0 <= i < |candidates| && candidates[i] == c;
      ShowsExactly(t, org, filters, c);
      var at := SearchRefinesDatabase(t, org, filters, candidates, limit);
      AllSelected(t, org, filters, candidates, limit, hits, at, i);
      var k :| 0 <= k < |at| && at[k] == i;
      ShowsExactly(t, org, filters, candidates[at[k]]);
      assert hits[k] in hits;
    }
  }

  // ---- what the graph is asked, and how its answer is read --------------------------------

  /** The namespaces a search looks into: those it names, else all domains and the shared one. */
  ghost predicate Asks(domains: seq<string>, namespaces: seq<string>, n: string) {
    if namespaces != [] then n in namespaces else n == "plk.shared" || exists d <- domains :: n == "plk.domain." + d
  }

  lemma {:induction false} EdgesOfGroups(backend: Backend, org: OrgId, groups: seq<string>, edge: Edge)
    ensures edge in EdgesIn(backend, org, groups) <==> exists group <- groups :: edge in backend(Partition(org, group))
  {
    if groups != [] {
      var n := |groups| - 1;
      EdgesOfGroups(backend, org, groups[..n], edge);
      assert groups == groups[..n] + [groups[n]];
    }
  }

  /** A search reads exactly the edges of the groups of the namespaces it asks for, in partitions of its own organization. */
  lemma EdgesAreOwn(g: GraphSettings, domains: seq<string>, namespaces: seq<string>, org: OrgId, backend: Backend, edge: Edge)
    ensures edge in EdgesIn(backend, org, Sorted(Groups(g, domains, namespaces))) <==>
              exists n :: Asks(domains, namespaces, n) && edge in backend(Partition(org, g.groupFor(n)))
  {
    var groups := Sorted(Groups(g, domains, namespaces));
    EdgesOfGroups(backend, org, groups, edge);
    assert forall group :: group in groups <==> group in Elements(groups);
    forall group ensures group in groups <==> exists n :: Asks(domains, namespaces, n) && g.groupFor(n) == group {
      GroupsOfNamespaces(g, domains, namespaces, group);
    }
    hide Asks, Groups, EdgesIn;
  }

  lemma GroupsOfNamespaces(g: GraphSettings, domains: seq<string>, namespaces: seq<string>, group: string)
    ensures group in Groups(g, domains, namespaces) <==> exists n :: Asks(domains, namespaces, n) && g.groupFor(n) == group
  {
    if group in Groups(g, domains, namespaces) {
      if namespaces != [] {
        var n :| n in namespaces && g.groupFor(n) == group;
        assert Asks(domains, namespaces, n);
      } else if group == g.groupFor(SHARED) {
        assert Asks(domains, namespaces, "plk.shared");
      } else {
        var d :| d in domains && g.groupFor(DOMAIN_PREFIX + d) == group;
        assert Asks(domains, namespaces, "plk.domain." + d);
      }
    }
  }

  /** The edge is about the fact: by its own id, or, if that is unknown, by the first known one of its episodes. */
  ghost predicate IsAbout(known: Attribution, edge: Edge, id: string) {
    if edge.uuid in known then known[edge.uuid] == id
    else exists j :: 0 <= j < |edge.episodes| && edge.episodes[j] in known && known[edge.episodes[j]] == id
                     && forall i :: 0 <= i < j ==> edge.episodes[i] !in known
  }

  lemma {:induction false} FirstKnownExactly(known: Attribution, ids: seq<EdgeId>, id: string)
    ensures FirstKnown(known, ids) == Some(id) <==>
              exists j :: 0 <= j < |ids| && ids[j] in known && known[ids[j]] == id && forall i :: 0 <= i < j ==> ids[i] !in known
  {
    if ids != [] && ids[0] !in known {
      FirstKnownExactly(known, ids[1..], id);
      if j :| 0 <= j < |ids| && ids[j] in known && known[ids[j]] == id && forall i :: 0 <= i < j ==> ids[i] !in known {
        assert ids[1..][j - 1] == ids[j] && forall i :: 0 <= i < j - 1 ==> ids[1..][i] == ids[i + 1];
      }
      if j :| 0 <= j < |ids[1..]| && ids[1..][j] in known && known[ids[1..][j]] == id && forall i :: 0 <= i < j ==> ids[1..][i] !in known {
        assert ids[j + 1] == ids[1..][j] && forall i :: 0 < i < j + 1 ==> ids[i] == ids[1..][i - 1];
      }
    }
  }

  lemma IsAboutExactly(known: Attribution, edge: Edge, id: string)
    ensures FactOf(known, edge) == Some(id) <==> IsAbout(known, edge, id)
  {
    FirstKnownExactly(known, edge.episodes, id);
  }

  /** Each hit of the graph stands for the first edge about its fact, with the text and score of that edge. */
  lemma {:induction false} HitsAreFirstEdges(known: Attribution, edges: seq<Edge>, h: Hit)
    requires h in Resolved(known, edges)
    ensures exists i :: 0 <= i < |edges| && IsAbout(known, edges[i], h.factId) && h.text == edges[i].text && h.score == edges[i].score
                        && forall j :: 0 <= j < i ==> !IsAbout(known, edges[j], h.factId)
  {
    var n := |edges| - 1;
    if h in Resolved(known, edges[..n]) {
      HitsAreFirstEdges(known, edges[..n], h);
      var i :| 0 <= i < n && IsAbout(known, edges[..n][i], h.factId) && h.text == edges[..n][i].text && h.score == edges[..n][i].score
               && forall j :: 0 <= j < i ==> !IsAbout(known, edges[..n][j], h.factId);
      assert edges[i] == edges[..n][i] && forall j :: 0 <= j < i ==> edges[j] == edges[..n][j];
    } else {
      IsAboutExactly(known, edges[n], h.factId);
      ResolvedOnce(known, edges[..n]);
      hide IsAbout, FactOf, Resolved;
      forall j | 0 <= j < n ensures !IsAbout(known, edges[j], h.factId) {
        IsAboutExactly(known, edges[j], h.factId);
        assert edges[j] == edges[..n][j] && edges[j] in edges[..n];
      }
    }
  }

  lemma {:induction false} CandidateOfHit(checkpoints: map<FactKey, Checkpoint>, org: OrgId, hits: seq<Hit>, id: string)
    requires Names(hits, id) && FactKey(org, id) in checkpoints
    ensures exists c <- CandidatesOf(checkpoints, org, hits) :: c.factId == id
  {
    var n := |hits| - 1;
    assert hits == hits[..n] + [hits[n]];
    NamesMore(hits[..n], hits[n]);
    if hits[n].factId == id {
      assert Candidate(id, checkpoints[FactKey(org, id)].version, hits[n].score) in CandidatesOf(checkpoints, org, hits);
    } else {
      CandidateOfHit(checkpoints, org, hits[..n], id);
    }
  }

  /** A visible fact whose checkpoint lists an edge the graph returned is found, if neither limit cuts the answer short. */
  lemma IndexedFactIsFound(g: GraphSettings, w: World, f: FactKey, filters: Filters, known: Attribution, edges: seq<Edge>,
                           edge: Edge, pool: int, limit: int)
    requires CheckpointsOk(g, w) && HeadsHaveRevisions(w.tables) && AttributionOf(w.checkpoints, f.org, known)
    requires edge in edges && edge.uuid.Seeded? && Lists(w.checkpoints, f, edge.uuid.ref)
    requires GetFact(w.tables, f).Ok? && Visible(filters, GetFact(w.tables, f).value)
    requires |Resolved(known, edges)| <= pool && |Resolved(known, edges)| <= limit && limit >= 1
    ensures var hits := Take(Shown(w.tables, f.org, filters, CandidatesOf(w.checkpoints, f.org, Take(Resolved(known, edges), pool))), limit);
            exists h <- hits :: h.factId == f.id && h.revision == w.tables.heads[f].currentVersion && f in w.tables.heads
  {
    hide CheckpointsOk, Visible, Resolved, CandidatesOf, Shown, AttributionOf, HeadsHaveRevisions, Take, Lists;
    var candidates := CandidatesOf(w.checkpoints, f.org, Take(Resolved(known, edges), pool));
    var c := IndexedIsCandidate(g, w, f, known, edges, edge, pool);
    VisibleCandidateIsHit(w.tables, f.org, filters, candidates, limit, c);
  }

  lemma IndexedIsCandidate(g: GraphSettings, w: World, f: FactKey, known: Attribution, edges: seq<Edge>, edge: Edge, pool: int)
    returns (c: Candidate)
    requires CheckpointsOk(g, w) && AttributionOf(w.checkpoints, f.org, known)
    requires edge in edges && edge.uuid.Seeded? && Lists(w.checkpoints, f, edge.uuid.ref)
    requires |Resolved(known, edges)| <= pool
    ensures var candidates := CandidatesOf(w.checkpoints, f.org, Take(Resolved(known, edges), pool));
            c in candidates && c.factId == f.id && |candidates| <= |Resolved(known, edges)|
  {
    CheckpointsListOwnRefs(g, w);
    assert known[edge.uuid] == f.id;
    hide CheckpointsOk, Resolved, CandidatesOf, AttributionOf, OwnRefs;
    ResolvedOnce(known, edges);
    var resolved := Resolved(known, edges);
    assert Names(resolved, f.id);
    assert Take(resolved, pool) == resolved;
    CandidateOfHit(w.checkpoints, f.org, resolved, f.id);
    CandidatesAreShort(w.checkpoints, f.org, resolved);
    c :| c in CandidatesOf(w.checkpoints, f.org, resolved) && c.factId == f.id;
  }

  lemma VisibleCandidateIsHit(t: Tables, org: OrgId, filters: Filters, candidates: seq<Candidate>, limit: int, c: Candidate)
    requires HeadsHaveRevisions(t) && limit >= 1 && c in candidates && |candidates| <= limit && Shows(t, org, filters, c)
    ensures HitOf(GetFact(t, FactKey(org, c.factId)).value, c.score) in Take(Shown(t, org, filters, candidates), limit)
  {
    var at := SearchRefinesDatabase(t, org, filters, candidates, limit);
    hide HeadsHaveRevisions, Visible, Shown, Take, GetFact, HitOf;
    var i :| 0 <= i < |candidates| && candidates[i] == c;
    AllSelected(t, org, filters, candidates, limit, Take(Shown(t, org, filters, candidates), limit), at, i);
    var k :| 0 <= k < |at| && at[k] == i;
  }

  lemma {:induction false} CandidatesAreShort(checkpoints: map<FactKey, Checkpoint>, org: OrgId, hits: seq<Hit>)
    ensures |CandidatesOf(checkpoints, org, hits)| <= |hits|
  {
    if hits != [] {
      CandidatesAreShort(checkpoints, org, hits[..|hits| - 1]);
    }
  }

  lemma {:induction false} IncreasingFill(at: seq<nat>, n: nat)
    requires (forall j, k :: 0 <= j < k < |at| ==> at[j] < at[k]) && forall k :: 0 <= k < |at| ==> at[k] < n
    ensures |at| <= n && (at != [] ==> at[|at| - 1] >= |at| - 1)
  {
    if at != [] {
      IncreasingFill(at[..|at| - 1], at[|at| - 1]);
    }
  }

  /** No visible candidate is left out when there are no more candidates than the limit. */
  lemma AllSelected(t: Tables, org: OrgId, filters: Filters, candidates: seq<Candidate>, limit: int, hits: seq<SearchHit>, at: seq<nat>, i: nat)
    requires HeadsHaveRevisions(t) && IsSelection(t, org, filters, candidates, limit, hits, at)
    requires |candidates| <= limit && i < |candidates| && Shows(t, org, filters, candidates[i])
    ensures i in at
  {
    hide HeadsHaveRevisions, Shows, GetFact, HitOf;
    IncreasingFill(at, |candidates|);
  }
}
