/** The contribution statistics of the dashboard, computed from any usage log. */
module Metrics {
  import opened Domain
  import opened Counting
  import opened Ordering
  import opened UsageRecords
  import opened UsageRecorder

  // ---- the records that count -------------------------------------------------------------

  function Outcome(r: Record): string {
    if r.outcome.Some? && r.outcome.value in {"ok", "degraded", "error"} then r.outcome.value else "ok"
  }

  function Hits(r: Record): int {
    if r.hits.Some? then r.hits.value else 0
  }

  predicate IsHit(r: Record) {
    r.tool == SearchTool && Outcome(r) == "ok" && Hits(r) > 0
  }

  predicate IsMeasurable(r: Record) {
    IsHit(r) && r.searchId.Some?
  }

  function Measurable(usage: Log): seq<Record> {
    Where(usage, IsMeasurable)
  }

  /** The first record of each decision id. */
  function DecisionsOf(usage: Log): seq<Record> {
    if usage == [] then []
    else
      var before, last := DecisionsOf(usage[..|usage| - 1]), usage[|usage| - 1];
      if last.tool == DecisionTool && last.outcome == Some("recorded") && last.decisionId.Some?
         && !exists d <- before :: d.decisionId == last.decisionId
      then before + [last] else before
  }

  // ---- the validator ----------------------------------------------------------------------

  datatype Verdict = Accept | Reject | Crash

  function ResolvedIn(decisions: seq<Record>): set<string> {
    set d <- decisions, id | d.searchIds.Ids? && id in d.searchIds.ids :: id
  }

  predicate NoneTwice(ids: seq<string>) {
    forall i | 0 <= i < |ids| :: ids[i] !in ids[..i]
  }

  /** One decision against the searches and the ids resolved so far. Reading the facts of a search whose list is
      null ends the computation. */
  function Judge(byId: map<string, Record>, resolved: set<string>, d: Record): Verdict {
    if !d.searchIds.Ids? || d.searchIds.ids == [] || !NoneTwice(d.searchIds.ids)
       || !d.usedFactIds.Some? || !NoneTwice(d.usedFactIds.value) || !d.client.Some?
       || (exists id <- d.searchIds.ids :: id !in byId)
       || (exists id <- d.searchIds.ids :: byId[id].client != d.client)
       || (exists id <- d.searchIds.ids :: id in resolved) then Reject
    else if exists id <- d.searchIds.ids :: byId[id].factIds.Null? then Crash
    else if exists fact <- d.usedFactIds.value :: !Returned(byId, d.searchIds.ids, fact) then Reject
    else if d.effect.Some? && EffectFits(d.effect.value, d.usedFactIds.value, d.noUseReason) then Accept
    else Reject
  }

  /** The decisions that keep the tool contract; None if a null list of facts had to be read. */
  function Validated(byId: map<string, Record>, decisions: seq<Record>): Option<seq<Record>> {
    if decisions == [] then Some([])
    else
      var before := Validated(byId, decisions[..|decisions| - 1]);
      if before.None? then None
      else match Judge(byId, ResolvedIn(before.value), decisions[|decisions| - 1])
           case Accept => Some(before.value + [decisions[|decisions| - 1]])
           case Reject => before
           case Crash => None
  }

  // ---- what is counted --------------------------------------------------------------------

  function Bucket(r: Record): string {
    if r.client.Some? then r.client.value else "unknown"
  }

  predicate Uses(d: Record) {
    d.effect.Some? && d.effect.value in USING
  }

  predicate IsStrong(d: Record) {
    d.effect.Some? && d.effect.value in STRONG
  }

  function OfClient(client: string): Record -> bool {
    (r: Record) => Bucket(r) == client
  }

  predicate IsResolvedBy(ids: set<string>, r: Record) {
    r.searchId.Some? && r.searchId.value in ids
  }

  function ResolvedBy(ids: set<string>): Record -> bool {
    (r: Record) => IsResolvedBy(ids, r)
  }

  function ResolvedFor(ids: set<string>, client: string): Record -> bool {
    (r: Record) => Bucket(r) == client && IsResolvedBy(ids, r)
  }

  function AdoptedFor(client: string): Record -> bool {
    (d: Record) => Bucket(d) == client && Uses(d)
  }

  function StrongFor(client: string): Record -> bool {
    (d: Record) => Bucket(d) == client && IsStrong(d)
  }

  predicate UsesFact(d: Record, fact: string) {
    d.usedFactIds.Some? && fact in d.usedFactIds.value
  }

  function UsedFor(fact: string): Record -> bool {
    (d: Record) => UsesFact(d, fact)
  }

  function StrongUseFor(fact: string): Record -> bool {
    (d: Record) => UsesFact(d, fact) && IsStrong(d)
  }

  function Occurrences(ids: seq<string>, fact: string): nat {
    if ids == [] then 0 else Occurrences(ids[..|ids| - 1], fact) + (if ids[|ids| - 1] == fact then 1 else 0)
  }

  /** How often searches returned the fact; a list that names it twice counts twice. */
  function ReturnedOf(searches: seq<Record>, fact: string): nat {
    if searches == [] then 0
    else
      var last := searches[|searches| - 1];
      ReturnedOf(searches[..|searches| - 1], fact) + (if last.factIds.Ids? then Occurrences(last.factIds.ids, fact) else 0)
  }

  // ---- counting by injection --------------------------------------------------------------

  /** Ids that all belong to counted searches are no more than the counted searches. */
  lemma {:induction false} CoveredByCount(searches: seq<Record>, ids: set<string>, p: Record -> bool)
    requires forall id <- ids :: exists r <- searches :: r.searchId == Some(id) && p(r)
    ensures |ids| <= Count(searches, p)
    decreases |searches|
  {
    if searches == [] {
      assert ids == {};
    } else {
      var n := |searches| - 1;
      var last := searches[n];
      var rest := if last.searchId.Some? && p(last) then ids - {last.searchId.value} else ids;
      forall id <- rest ensures exists r <- searches[..n] :: r.searchId == Some(id) && p(r) {
        var r :| r in searches && r.searchId == Some(id) && p(r);
        assert r in searches[..n];
      }
      CoveredByCount(searches[..n], rest, p);
    }
  }

  /** Decisions whose search ids are pairwise disjoint. */
  ghost predicate Disjoint(ds: seq<Record>) {
    forall i, j :: 0 <= i < j < |ds| ==> ResolvedIn([ds[i]]) !! ResolvedIn([ds[j]])
  }

  /** One search id of every counted decision; as many as decisions, when no two share an id. */
  ghost function Picks(ds: seq<Record>, p: Record -> bool, pick: Record -> string): set<string> {
    if ds == [] then {}
    else Picks(ds[..|ds| - 1], p, pick) + (if p(ds[|ds| - 1]) then {pick(ds[|ds| - 1])} else {})
  }

  lemma {:induction false} PicksAreCounted(ds: seq<Record>, p: Record -> bool, pick: Record -> string)
    requires Disjoint(ds) && forall d <- ds :: p(d) ==> pick(d) in ResolvedIn([d])
    ensures |Picks(ds, p, pick)| == Count(ds, p)
    ensures forall id <- Picks(ds, p, pick) :: exists d <- ds :: p(d) && pick(d) == id
  {
    hide ResolvedIn;
    if ds != [] {
      var n := |ds| - 1;
      PicksAreCounted(ds[..n], p, pick);
      forall d <- ds[..n] ensures ResolvedIn([d]) !! ResolvedIn([ds[n]]) {
        var i :| 0 <= i < n && ds[i] == d;
      }
      assert ds == ds[..n] + [ds[n]];
    }
  }

  // ---- what the validator guarantees ------------------------------------------------------

  lemma {:induction false} SearchesInLog(log: Log, id: string)
    requires id in SearchesOf(log)
    ensures SearchesOf(log)[id] in log && SearchesOf(log)[id].searchId == Some(id)
  {
    SearchesFind(log, id);
  }

  lemma ResolvedInMore(ds: seq<Record>, d: Record)
    ensures ResolvedIn(ds + [d]) == ResolvedIn(ds) + ResolvedIn([d])
  {
    assert forall x :: x in ds + [d] <==> x in ds || x == d;
  }

  /** An accepted decision resolves searches of its own client and uses only what they returned. */
  ghost predicate Accepted(byId: map<string, Record>, d: Record) {
    && d.searchIds.Ids? && d.searchIds.ids != [] && d.client.Some? && d.usedFactIds.Some?
    && (forall id <- d.searchIds.ids :: id in byId && byId[id].client == d.client)
    && (forall fact <- d.usedFactIds.value :: Returned(byId, d.searchIds.ids, fact))
    && d.effect.Some? && EffectFits(d.effect.value, d.usedFactIds.value, d.noUseReason)
  }

  lemma {:induction false} ValidatedKeepsContract(byId: map<string, Record>, decisions: seq<Record>)
    requires Validated(byId, decisions).Some?
    ensures var ds := Validated(byId, decisions).value;
            Disjoint(ds) && forall d <- ds :: Accepted(byId, d)
  {
    if decisions != [] {
      var n := |decisions| - 1;
      ValidatedKeepsContract(byId, decisions[..n]);
      var ds := Validated(byId, decisions[..n]).value;
      var d := decisions[n];
      if Judge(byId, ResolvedIn(ds), d) == Accept {
        AcceptedByJudge(byId, ResolvedIn(ds), d);
        forall i | 0 <= i < |ds| ensures ResolvedIn([ds[i]]) <= ResolvedIn(ds) {
          forall id <- ResolvedIn([ds[i]]) ensures id in ResolvedIn(ds) {
            assert ds[i] in ds;
          }
        }
        hide Judge, ResolvedIn, Accepted;
      }
    }
  }

  lemma AcceptedByJudge(byId: map<string, Record>, resolved: set<string>, d: Record)
    requires Judge(byId, resolved, d) == Accept
    ensures Accepted(byId, d) && ResolvedIn([d]) !! resolved
  {
    assert d in [d];
  }

  lemma FirstIsResolved(ds: seq<Record>, d: Record)
    requires d in ds && d.searchIds.Ids? && d.searchIds.ids != []
    ensures d.searchIds.ids[0] in ResolvedIn([d]) && d.searchIds.ids[0] in ResolvedIn(ds)
  {
    var id := d.searchIds.ids[0];
    assert d in [d] && id in d.searchIds.ids;
  }

  // ---- the rates --------------------------------------------------------------------------

  /** The counted decisions of a client resolve as many searches of the same client. */
  lemma AdoptedAreResolved(usage: Log, ds: seq<Record>, client: string)
    requires Disjoint(ds) && forall d <- ds :: Accepted(SearchesOf(Measurable(usage)), d)
    ensures Count(ds, AdoptedFor(client)) <= Count(Measurable(usage), ResolvedFor(ResolvedIn(ds), client))
  {
    hide ResolvedIn, Measurable, SearchesOf, EffectFits, Returned, Disjoint, Picks;
    var ms := Measurable(usage);
    var byId := SearchesOf(ms);
    var pick := (d: Record) => if d.searchIds.Ids? && d.searchIds.ids != [] then d.searchIds.ids[0] else "";
    forall d <- ds ensures pick(d) in ResolvedIn([d]) && pick(d) in ResolvedIn(ds) {
      assert Accepted(byId, d);
      FirstIsResolved(ds, d);
    }
    PicksAreCounted(ds, AdoptedFor(client), pick);
    forall id <- Picks(ds, AdoptedFor(client), pick)
      ensures exists r <- ms :: r.searchId == Some(id) && ResolvedFor(ResolvedIn(ds), client)(r)
    {
      var d :| d in ds && AdoptedFor(client)(d) && pick(d) == id;
      assert Accepted(byId, d) && id in byId;
      SearchesInLog(ms, id);
    }
    CoveredByCount(ms, Picks(ds, AdoptedFor(client), pick), ResolvedFor(ResolvedIn(ds), client));
  }

  predicate Holds(r: Record, fact: string) {
    r.factIds.Ids? && fact in r.factIds.ids
  }

  function HoldsFact(fact: string): Record -> bool {
    (r: Record) => Holds(r, fact)
  }

  lemma {:induction false} OccursWhereHeld(ids: seq<string>, fact: string)
    ensures fact in ids ==> Occurrences(ids, fact) >= 1
  {
    if ids != [] {
      OccursWhereHeld(ids[..|ids| - 1], fact);
    }
  }

  lemma {:induction false} HoldingIsReturned(searches: seq<Record>, fact: string)
    ensures Count(searches, HoldsFact(fact)) <= ReturnedOf(searches, fact)
  {
    if searches != [] {
      HoldingIsReturned(searches[..|searches| - 1], fact);
      if searches[|searches| - 1].factIds.Ids? {
        OccursWhereHeld(searches[|searches| - 1].factIds.ids, fact);
      }
    }
  }

  ghost function SourceOf(byId: map<string, Record>, fact: string, d: Record): string {
    if id :| d.searchIds.Ids? && id in d.searchIds.ids && id in byId && Holds(byId[id], fact) then id else ""
  }

  lemma HasSource(byId: map<string, Record>, fact: string, d: Record)
    requires Accepted(byId, d) && UsesFact(d, fact)
    ensures var id := SourceOf(byId, fact, d); id in d.searchIds.ids && id in byId && Holds(byId[id], fact)
    ensures SourceOf(byId, fact, d) in ResolvedIn([d])
  {
    assert Returned(byId, d.searchIds.ids, fact);
    assert exists id :: id in d.searchIds.ids && id in byId && Holds(byId[id], fact);
    assert d in [d];
  }

  /** The decisions that use a fact draw it from as many searches that returned it. */
  lemma UsedAreReturned(usage: Log, ds: seq<Record>, fact: string)
    requires Disjoint(ds) && forall d <- ds :: Accepted(SearchesOf(Measurable(usage)), d)
    ensures Count(ds, UsedFor(fact)) <= ReturnedOf(Measurable(usage), fact)
  {
    var ms := Measurable(usage);
    var byId := SearchesOf(ms);
    var pick := (d: Record) => SourceOf(byId, fact, d);
    forall d <- ds | UsedFor(fact)(d) ensures pick(d) in ResolvedIn([d]) {
      HasSource(byId, fact, d);
    }
    PicksAreCounted(ds, UsedFor(fact), pick);
    forall id <- Picks(ds, UsedFor(fact), pick) ensures exists r <- ms :: r.searchId == Some(id) && HoldsFact(fact)(r) {
      var d :| d in ds && UsedFor(fact)(d) && pick(d) == id;
      HasSource(byId, fact, d);
      SearchesInLog(ms, id);
    }
    CoveredByCount(ms, Picks(ds, UsedFor(fact), pick), HoldsFact(fact));
    HoldingIsReturned(ms, fact);
  }

  datatype ClientRow = ClientRow(measurable: nat, resolved: nat, adopted: nat, strong: nat)
  datatype FactRow = FactRow(returned: nat, used: nat, strong: nat)

  /** The rows of the report; None if the computation ends at a null list. */
  ghost function ClientRowOf(usage: Log, ds: seq<Record>, client: string): ClientRow {
    var ms := Measurable(usage);
    ClientRow(Count(ms, OfClient(client)), Count(ms, ResolvedFor(ResolvedIn(ds), client)),
              Count(ds, AdoptedFor(client)), Count(ds, StrongFor(client)))
  }

  ghost function FactRowOf(usage: Log, ds: seq<Record>, fact: string): FactRow {
    FactRow(ReturnedOf(Measurable(usage), fact), Count(ds, UsedFor(fact)), Count(ds, StrongUseFor(fact)))
  }

  ghost function ValidDecisions(usage: Log): Option<seq<Record>> {
    Validated(SearchesOf(Measurable(usage)), DecisionsOf(usage))
  }

  /** For every log that can be computed at all, every use rate and every client rate is a rate: no numerator
      exceeds its denominator. */
  lemma RatesAreRates(usage: Log, client: string, fact: string)
    requires ValidDecisions(usage).Some?
    ensures var ds := ValidDecisions(usage).value;
            var c, f := ClientRowOf(usage, ds, client), FactRowOf(usage, ds, fact);
            && c.strong <= c.adopted <= c.resolved <= c.measurable
            && f.strong <= f.used <= f.returned
  {
    var byId := SearchesOf(Measurable(usage));
    ValidatedKeepsContract(byId, DecisionsOf(usage));
    var ds := ValidDecisions(usage).value;
    CountMonotone(ds, StrongFor(client), AdoptedFor(client));
    AdoptedAreResolved(usage, ds, client);
    CountMonotone(Measurable(usage), ResolvedFor(ResolvedIn(ds), client), OfClient(client));
    CountMonotone(ds, StrongUseFor(fact), UsedFor(fact));
    UsedAreReturned(usage, ds, fact);
  }

  /** The same holds of the totals: each decision resolves a search of its own. */
  lemma TotalsAreRates(usage: Log)
    requires ValidDecisions(usage).Some?
    ensures var ds, ms := ValidDecisions(usage).value, Measurable(usage);
            && Count(ds, IsStrong) <= Count(ds, Uses) <= |ds|
            && |ds| <= Count(ms, ResolvedBy(ResolvedIn(ds))) <= |ms| <= Count(usage, IsHit)
  {
    var ds, ms := ValidDecisions(usage).value, Measurable(usage);
    var byId := SearchesOf(ms);
    ValidatedKeepsContract(byId, DecisionsOf(usage));
    CountMonotone(ds, IsStrong, Uses);
    WhereIsCounted(ds, Uses);
    WhereIsCounted(usage, IsMeasurable);
    CountMonotone(usage, IsMeasurable, IsHit);
    hide ResolvedIn, Measurable, SearchesOf, EffectFits, Returned, Disjoint, Picks, Count, Where, ValidDecisions;
    DecisionsAreResolved(ms, ds);
    WhereIsCounted(ms, ResolvedBy(ResolvedIn(ds)));
  }

  lemma DecisionsAreResolved(ms: seq<Record>, ds: seq<Record>)
    requires Disjoint(ds) && forall d <- ds :: Accepted(SearchesOf(ms), d)
    ensures |ds| <= Count(ms, ResolvedBy(ResolvedIn(ds)))
  {
    hide ResolvedIn, SearchesOf, EffectFits, Returned, Disjoint, Picks, Count;
    var all, counts := (d: Record) => true, ResolvedBy(ResolvedIn(ds));
    var pick := (d: Record) => if d.searchIds.Ids? && d.searchIds.ids != [] then d.searchIds.ids[0] else "";
    forall d <- ds ensures pick(d) in ResolvedIn([d]) && pick(d) in ResolvedIn(ds) {
      assert Accepted(SearchesOf(ms), d);
      FirstIsResolved(ds, d);
    }
    AllCounted(ds, all);
    PicksAreCounted(ds, all, pick);
    forall id <- Picks(ds, all, pick) ensures exists r <- ms :: r.searchId == Some(id) && counts(r) {
      var d :| d in ds && pick(d) == id;
      assert Accepted(SearchesOf(ms), d) && id in SearchesOf(ms);
      SearchesInLog(ms, id);
    }
    CoveredByCount(ms, Picks(ds, all, pick), counts);
  }

  // ---- the recorder's own logs ------------------------------------------------------------

  predicate IsDecision(r: Record) {
    r.tool == DecisionTool
  }

  lemma {:induction false} EveryDecisionListed(log: Log, n: nat)
    requires LogOk(log) && n <= |log|
    ensures DecisionsOf(log[..n]) == Where(log[..n], IsDecision)
  {
    hide ResolvedOnce, TraceOk, CompletedOk, HasServing, HasReturned;
    if n > 0 {
      EveryDecisionListed(log, n - 1);
      assert log[..n][..n - 1] == log[..n - 1];
      var last := log[n - 1];
      assert DecisionOk(log, n - 1);
      if last.tool == DecisionTool {
        forall d <- Where(log[..n - 1], IsDecision) ensures d.decisionId != last.decisionId {
          var i :| 0 <= i < n - 1 && log[i] == d;
        }
      }
    }
  }

  /** The search a decision was recorded against is the one its id stands for. */
  lemma ServingIsFound(log: Log, m: nat, id: string)
    requires OwnIds(log) && m < |log| && log[m].tool == SearchTool && log[m].searchId == Some(id) && SearchHits(log[m])
    ensures id in SearchesOf(Measurable(log)) && SearchesOf(Measurable(log))[id] == log[m]
  {
    var ms := Measurable(log);
    assert log[m] in ms;
    SearchesFind(ms, id);
    var s := SearchesOf(ms)[id];
    var k :| 0 <= k < |log| && log[k] == s;
  }

  lemma RecordedPasses(log: Log, n: nat)
    requires LogOk(log) && n < |log| && log[n].tool == DecisionTool
    ensures Judge(SearchesOf(Measurable(log)), ResolvedIn(Where(log[..n], IsDecision)), log[n]) == Accept
  {
    var byId := SearchesOf(Measurable(log));
    var d := log[n];
    assert DecisionOk(log, n);
    forall id <- d.searchIds.ids ensures id in byId && byId[id].client == d.client && byId[id].factIds.Ids? {
      assert HasServing(log, n, id);
      var m :| 0 <= m < n && Serves(log[m], log[n], id);
      ServingIsFound(log, m, id);
    }
    forall id <- d.searchIds.ids ensures id !in ResolvedIn(Where(log[..n], IsDecision)) {
      NotResolvedBefore(log, n, id);
    }
    forall fact <- d.usedFactIds.value ensures Returned(byId, d.searchIds.ids, fact) {
      FactIsReturned(log, n, fact);
    }
    hide LogOk, OwnIds, Measurable, SearchesOf, ResolvedIn, Where, Returned, HasServing, HasReturned, EffectFits;
  }

  lemma NotResolvedBefore(log: Log, n: nat, id: string)
    requires ResolvedOnce(log) && n < |log| && Resolves(log[n], id)
    ensures id !in ResolvedIn(Where(log[..n], IsDecision))
  {
    forall e <- Where(log[..n], IsDecision) ensures !Resolves(e, id) {
      var i :| 0 <= i < n && log[i] == e;
    }
  }

  lemma FactIsReturned(log: Log, n: nat, fact: string)
    requires OwnIds(log) && n < |log| && log[n].tool == DecisionTool && DecisionOk(log, n) && fact in log[n].usedFactIds.value
    ensures Returned(SearchesOf(Measurable(log)), log[n].searchIds.ids, fact)
  {
    var d := log[n];
    assert HasReturned(log, n, fact);
    var m :| 0 <= m < n && log[m].tool == SearchTool && log[m].searchId.Some? && log[m].searchId.value in d.searchIds.ids
             && log[m].factIds.Ids? && fact in log[m].factIds.ids;
    var id := log[m].searchId.value;
    assert HasServing(log, n, id);
    var k :| 0 <= k < n && Serves(log[k], d, id);
    ServingIsFound(log, k, id);
    assert m == k;
  }

  lemma {:induction false} RecordedAreValid(log: Log, n: nat)
    requires LogOk(log) && n <= |log|
    ensures Validated(SearchesOf(Measurable(log)), Where(log[..n], IsDecision)) == Some(Where(log[..n], IsDecision))
  {
    hide LogOk, Judge, Measurable, SearchesOf, ResolvedIn;
    if n > 0 {
      RecordedAreValid(log, n - 1);
      assert log[..n][..n - 1] == log[..n - 1];
      var byId, before := SearchesOf(Measurable(log)), Where(log[..n - 1], IsDecision);
      assert Where(log[..n], IsDecision) == if log[n - 1].tool == DecisionTool then before + [log[n - 1]] else before + [];
      assert before + [] == before;
      if log[n - 1].tool == DecisionTool {
        RecordedPasses(log, n - 1);
        hide Where;
        OneMoreValid(byId, before, log[n - 1]);
      }
    }
  }

  lemma OneMoreValid(byId: map<string, Record>, before: seq<Record>, d: Record)
    requires Validated(byId, before) == Some(before) && Judge(byId, ResolvedIn(before), d) == Accept
    ensures Validated(byId, before + [d]) == Some(before + [d])
  {
    hide Judge, ResolvedIn;
    assert (before + [d])[..|before|] == before;
  }

  /** The validator keeps every decision of a log that the recorder built. */
  lemma ValidatorKeepsRecorded(calls: seq<Call>)
    requires AllAdmissible(calls)
    ensures ValidDecisions(Written(calls)) == Some(Where(Written(calls), IsDecision))
  {
    var log := Written(calls);
    RecorderKeepsRules(calls);
    EveryDecisionListed(log, |log|);
    RecordedAreValid(log, |log|);
    assert log[..|log|] == log;
    hide LogOk, Written, AllAdmissible;
  }

  // ---- when the computation ends early ----------------------------------------------------

  ghost predicate AnyNull(usage: Log) {
    exists r <- Measurable(usage) :: r.factIds.Null?
  }

  lemma {:induction false} NoNullNoCrash(usage: Log, decisions: seq<Record>)
    requires !AnyNull(usage)
    ensures Validated(SearchesOf(Measurable(usage)), decisions).Some?
  {
    if decisions != [] {
      NoNullNoCrash(usage, decisions[..|decisions| - 1]);
      forall id <- SearchesOf(Measurable(usage)) ensures !SearchesOf(Measurable(usage))[id].factIds.Null? {
        SearchesInLog(Measurable(usage), id);
      }
      hide SearchesOf, Measurable;
    }
  }

  // ---- the report -------------------------------------------------------------------------

  datatype Stats = Stats(
    hitSearches: nat, measurable: nat, resolved: nat, decisions: nat, adopted: nat, strong: nat,
    clients: map<string, ClientRow>, facts: map<string, FactRow>)

  function ClientAt(rows: map<string, ClientRow>, client: string): ClientRow {
    if client in rows then rows[client] else ClientRow(0, 0, 0, 0)
  }

  function FactAt(rows: map<string, FactRow>, fact: string): FactRow {
    if fact in rows then rows[fact] else FactRow(0, 0, 0)
  }

  method SearchesById(searches: seq<Record>) returns (byId: map<string, Record>)
    requires forall r <- searches :: IsMeasurable(r)
    ensures byId == SearchesOf(searches)
  {
    byId := map[];
    for n := 0 to |searches|
      invariant byId == SearchesOf(searches[..n])
    {
      assert searches[..n + 1][..n] == searches[..n];
      assert searches[n] in searches;
      byId := byId[searches[n].searchId.value := searches[n]];
    }
    assert searches[..|searches|] == searches;
  }

  method Decisions(usage: Log) returns (result: seq<Record>)
    ensures result == DecisionsOf(usage)
  {
    var seen: set<string> := {};
    result := [];
    for n := 0 to |usage|
      invariant result == DecisionsOf(usage[..n])
      invariant forall id :: id in seen <==> exists d <- result :: d.decisionId == Some(id)
    {
      assert usage[..n + 1][..n] == usage[..n];
      var r := usage[n];
      if r.tool == DecisionTool && r.outcome == Some("recorded") && r.decisionId.Some? && r.decisionId.value !in seen {
        seen := seen + {r.decisionId.value};
        assert forall d :: d in result + [r] <==> d in result || d == r;
        result := result + [r];
      }
    }
    assert usage[..|usage|] == usage;
  }

  method ValidatedDecisions(usage: Log, byId: map<string, Record>) returns (result: Option<seq<Record>>)
    ensures result == Validated(byId, DecisionsOf(usage))
  {
    hide Judge, ResolvedIn, Accepted, DecisionsOf;
    var decisions := Decisions(usage);
    var resolved: set<string> := {};
    var kept: seq<Record> := [];
    NothingResolved();
    for n := 0 to |decisions|
      invariant Validated(byId, decisions[..n]) == Some(kept)
      invariant resolved == ResolvedIn(kept)
    {
      assert decisions[..n + 1][..n] == decisions[..n];
      var d := decisions[n];
      match Judge(byId, resolved, d)
      case Reject =>
      case Crash =>
        ValidatedStops(byId, decisions, n + 1);
        return None;
      case Accept =>
        AcceptedHasIds(byId, resolved, d);
        ResolvedInMore(kept, d);
        ResolvedByOne(d);
        resolved := resolved + Elements(d.searchIds.ids);
        kept := kept + [d];
    }
    assert decisions[..|decisions|] == decisions;
    return Some(kept);
  }

  lemma AcceptedHasIds(byId: map<string, Record>, resolved: set<string>, d: Record)
    requires Judge(byId, resolved, d) == Accept
    ensures d.searchIds.Ids?
  {
  }

  lemma NothingResolved()
    ensures ResolvedIn([]) == {}
  {
  }

  lemma ResolvedByOne(d: Record)
    requires d.searchIds.Ids?
    ensures ResolvedIn([d]) == Elements(d.searchIds.ids)
  {
    assert d in [d];
  }

  lemma {:induction false} ValidatedStops(byId: map<string, Record>, decisions: seq<Record>, n: nat)
    requires n <= |decisions| && Validated(byId, decisions[..n]).None?
    ensures Validated(byId, decisions).None?
    decreases |decisions| - n
  {
    hide Judge;
    if n == |decisions| {
      assert decisions[..n] == decisions;
    } else {
      assert decisions[..n + 1][..n] == decisions[..n];
      ValidatedStops(byId, decisions, n + 1);
    }
  }

  method SearchRows(searches: seq<Record>, ids: set<string>) returns (rows: map<string, ClientRow>)
    ensures forall c :: ClientAt(rows, c) == ClientRow(Count(searches, OfClient(c)), Count(searches, ResolvedFor(ids, c)), 0, 0)
  {
    rows := map[];
    for n := 0 to |searches|
      invariant forall c :: ClientAt(rows, c) == ClientRow(Count(searches[..n], OfClient(c)), Count(searches[..n], ResolvedFor(ids, c)), 0, 0)
    {
      var r := searches[n];
      forall c ensures Count(searches[..n + 1], OfClient(c)) == Count(searches[..n], OfClient(c)) + (if Bucket(r) == c then 1 else 0) {
        CountOneMore(searches, n, OfClient(c));
      }
      forall c ensures Count(searches[..n + 1], ResolvedFor(ids, c)) ==
                       Count(searches[..n], ResolvedFor(ids, c)) + (if Bucket(r) == c && IsResolvedBy(ids, r) then 1 else 0) {
        CountOneMore(searches, n, ResolvedFor(ids, c));
      }
      hide Count, OfClient, ResolvedFor, IsResolvedBy, Bucket;
      var row := ClientAt(rows, Bucket(r));
      rows := rows[Bucket(r) := row.(measurable := row.measurable + 1,
                                     resolved := row.resolved + if IsResolvedBy(ids, r) then 1 else 0)];
    }
    assert searches[..|searches|] == searches;
  }

  method ClientRows(searches: seq<Record>, decisions: seq<Record>, ids: set<string>) returns (rows: map<string, ClientRow>)
    ensures forall c :: ClientAt(rows, c) == ClientRow(Count(searches, OfClient(c)), Count(searches, ResolvedFor(ids, c)),
                                                       Count(decisions, AdoptedFor(c)), Count(decisions, StrongFor(c)))
  {
    rows := SearchRows(searches, ids);
    ghost var before := rows;
    for n := 0 to |decisions|
      invariant forall c :: ClientAt(rows, c) == ClientAt(before, c).(adopted := Count(decisions[..n], AdoptedFor(c)),
                                                                      strong := Count(decisions[..n], StrongFor(c)))
    {
      var d := decisions[n];
      forall c ensures Count(decisions[..n + 1], AdoptedFor(c)) ==
                       Count(decisions[..n], AdoptedFor(c)) + (if Bucket(d) == c && Uses(d) then 1 else 0) {
        CountOneMore(decisions, n, AdoptedFor(c));
      }
      forall c ensures Count(decisions[..n + 1], StrongFor(c)) ==
                       Count(decisions[..n], StrongFor(c)) + (if Bucket(d) == c && IsStrong(d) then 1 else 0) {
        CountOneMore(decisions, n, StrongFor(c));
      }
      hide Count, AdoptedFor, StrongFor, Uses, IsStrong, Bucket;
      var row := ClientAt(rows, Bucket(d));
      rows := rows[Bucket(d) := row.(adopted := row.adopted + (if Uses(d) then 1 else 0),
                                     strong := row.strong + if IsStrong(d) then 1 else 0)];
    }
    assert decisions[..|decisions|] == decisions;
  }

  /** Adds one search; a list that names a fact twice counts it twice. */
  method AddReturned(rows: map<string, FactRow>, ids: seq<string>) returns (more: map<string, FactRow>)
    ensures forall f :: FactAt(more, f) == FactAt(rows, f).(returned := FactAt(rows, f).returned + Occurrences(ids, f))
  {
    more := rows;
    for k := 0 to |ids|
      invariant forall f :: FactAt(more, f) == FactAt(rows, f).(returned := FactAt(rows, f).returned + Occurrences(ids[..k], f))
    {
      assert ids[..k + 1][..k] == ids[..k];
      var row := FactAt(more, ids[k]);
      more := more[ids[k] := row.(returned := row.returned + 1)];
    }
    assert ids[..|ids|] == ids;
  }

  /** Adds one decision to each fact it uses, once. */
  method AddUsed(rows: map<string, FactRow>, used: set<string>, strong: bool) returns (more: map<string, FactRow>)
    ensures forall f :: FactAt(more, f) ==
                        if f in used then FactAt(rows, f).(used := FactAt(rows, f).used + 1,
                                                           strong := FactAt(rows, f).strong + if strong then 1 else 0)
                        else FactAt(rows, f)
  {
    more := rows;
    var rest := used;
    while rest != {}
      invariant rest <= used
      invariant forall f :: FactAt(more, f) ==
                            if f in used - rest then FactAt(rows, f).(used := FactAt(rows, f).used + 1,
                                                                      strong := FactAt(rows, f).strong + if strong then 1 else 0)
                            else FactAt(rows, f)
      decreases |rest|
    {
      var f :| f in rest;
      rest := rest - {f};
      var row := FactAt(more, f);
      more := more[f := row.(used := row.used + 1, strong := row.strong + if strong then 1 else 0)];
    }
  }

  method FactRows(searches: seq<Record>, decisions: seq<Record>) returns (rows: Option<map<string, FactRow>>)
    requires forall d <- decisions :: d.usedFactIds.Some?
    ensures rows.None? <==> exists r <- searches :: r.factIds.Null?
    ensures rows.Some? ==> forall f :: FactAt(rows.value, f) == FactRow(ReturnedOf(searches, f), Count(decisions, UsedFor(f)),
                                                                        Count(decisions, StrongUseFor(f)))
  {
    var facts: map<string, FactRow> := map[];
    for n := 0 to |searches|
      invariant forall m :: 0 <= m < n ==> !searches[m].factIds.Null?
      invariant forall f :: FactAt(facts, f) == FactRow(ReturnedOf(searches[..n], f), 0, 0)
    {
      assert searches[..n + 1][..n] == searches[..n];
      match searches[n].factIds
      case Missing =>
      case Null => return None;
      case Ids(ids) => facts := AddReturned(facts, ids);
    }
    assert searches[..|searches|] == searches;
    for n := 0 to |decisions|
      invariant forall f :: FactAt(facts, f) == FactRow(ReturnedOf(searches, f), Count(decisions[..n], UsedFor(f)),
                                                        Count(decisions[..n], StrongUseFor(f)))
    {
      assert decisions[..n + 1][..n] == decisions[..n];
      facts := AddUsed(facts, Elements(decisions[n].usedFactIds.value), IsStrong(decisions[n]));
    }
    assert decisions[..|decisions|] == decisions;
    return Some(facts);
  }

  /** The rows and totals of the valid decisions of a log. */
  ghost predicate IsStatsOf(usage: Log, s: Stats) {
    && ValidDecisions(usage).Some?
    && var ds := ValidDecisions(usage).value;
    && (forall c :: ClientAt(s.clients, c) == ClientRowOf(usage, ds, c))
    && (forall f :: FactAt(s.facts, f) == FactRowOf(usage, ds, f))
    && s.hitSearches == Count(usage, IsHit) && s.measurable == |Measurable(usage)|
    && s.resolved == Count(Measurable(usage), ResolvedBy(ResolvedIn(ds)))
    && s.decisions == |ds| && s.adopted == Count(ds, Uses) && s.strong == Count(ds, IsStrong)
  }

  /** The statistics of a log. They end at a null list of facts exactly when some measurable search has one. */
  method ContributionStats(usage: Log) returns (stats: Option<Stats>)
    ensures stats.None? <==> AnyNull(usage)
    ensures stats.Some? ==> IsStatsOf(usage, stats.value)
  {
    var hitSearches := CountOf(usage, IsHit);
    var measurable := Measurable(usage);
    var byId := SearchesById(measurable);
    var valid := ValidatedDecisions(usage, byId);
    if valid.None? {
      if !AnyNull(usage) {
        NoNullNoCrash(usage, DecisionsOf(usage));
      }
      return None;
    }
    var ds := valid.value;
    ValidatedKeepsContract(byId, DecisionsOf(usage));
    hide IsHit, IsMeasurable, Measurable, SearchesOf, Validated, ResolvedIn, Count, ReturnedOf;
    assert forall d <- ds :: Accepted(byId, d);
    var ids := ResolvedIn(ds);
    var clients := ClientRows(measurable, ds, ids);
    var facts := FactRows(measurable, ds);
    if facts.None? {
      return None;
    }
    var resolved := CountOf(measurable, ResolvedBy(ids));
    var adopted := CountOf(ds, Uses);
    var strong := CountOf(ds, IsStrong);
    return Some(Stats(hitSearches, |measurable|, resolved, |ds|, adopted, strong, clients, facts.value));
  }
}
