/** What the contribution statistics count, in terms of the records of the log alone. */
module ContributionCounts {
  import opened Domain
  import opened Counting
  import opened Ordering
  import opened UsageRecords
  import opened UsageRecorder
  import opened Metrics

  // ---- searches ---------------------------------------------------------------------------

  /** A search that found something: it did not degrade or fail. */
  ghost predicate Found(r: Record) {
    && r.tool.SearchTool? && r.hits.Some? && r.hits.value >= 1
    && r.outcome != Some("degraded") && r.outcome != Some("error")
  }

  ghost predicate FoundWithId(r: Record, id: string) {
    Found(r) && r.searchId == Some(id)
  }

  /** The last search of this id that found something. */
  ghost predicate IsSearch(usage: Log, m: nat, id: string) {
    m < |usage| && FoundWithId(usage[m], id) && forall k :: m < k < |usage| ==> !FoundWithId(usage[k], id)
  }

  lemma FoundExactly(r: Record)
    ensures IsHit(r) <==> Found(r)
    ensures IsMeasurable(r) <==> Found(r) && r.searchId.Some?
  {
  }

  lemma {:induction false} SearchesAreLast(usage: Log, n: nat, id: string)
    requires n <= |usage|
    ensures id in SearchesOf(Measurable(usage[..n])) <==> exists m: nat :: IsSearch(usage[..n], m, id)
    ensures forall m: nat :: IsSearch(usage[..n], m, id) ==> SearchesOf(Measurable(usage[..n]))[id] == usage[m]
  {
    if n > 0 {
      var before, last := usage[..n - 1], usage[n - 1];
      assert usage[..n] == before + [last] && usage[..n][..n - 1] == before;
      SearchesAreLast(usage, n - 1, id);
      FoundExactly(last);
      OneMoreSearch(before, last, id);
      var kept := Measurable(before);
      assert (kept + [last])[..|kept|] == kept && kept + [] == kept;
      assert Measurable(usage[..n]) == if IsMeasurable(last) then kept + [last] else kept;
      hide IsSearch, Found, IsMeasurable, Measurable, Where;
      if FoundWithId(last, id) {
        assert IsSearch(before + [last], n - 1, id);
      } else if m: nat :| IsSearch(before, m, id) {
        assert IsSearch(before + [last], m, id);
      }
    } else {
      assert Measurable(usage[..0]) == [];
    }
  }

  lemma OneMoreSearch(before: Log, last: Record, id: string)
    ensures FoundWithId(last, id) ==> forall m: nat :: IsSearch(before + [last], m, id) <==> m == |before|
    ensures !FoundWithId(last, id) ==> forall m: nat :: IsSearch(before + [last], m, id) <==> IsSearch(before, m, id)
    ensures forall m: nat :: IsSearch(before, m, id) ==> m < |before|
  {
    hide Found;
    var all := before + [last];
    assert all[|before|] == last && forall k :: 0 <= k < |before| ==> all[k] == before[k];
  }

  // ---- decisions --------------------------------------------------------------------------

  ghost predicate IsRecorded(r: Record, id: string) {
    r.tool.DecisionTool? && r.outcome == Some("recorded") && r.decisionId == Some(id)
  }

  /** The first recorded decision of its id. */
  ghost predicate IsDecisionAt(usage: Log, n: nat) {
    && n < |usage| && usage[n].decisionId.Some? && IsRecorded(usage[n], usage[n].decisionId.value)
    && forall m :: 0 <= m < n ==> !IsRecorded(usage[m], usage[n].decisionId.value)
  }

  ghost predicate Rising(at: seq<nat>) {
    forall i, j :: 0 <= i < j < |at| ==> at[i] < at[j]
  }

  /** at lists, in order, the places of rows in usage. */
  ghost predicate AreAt(usage: Log, rows: seq<Record>, at: seq<nat>) {
    Rising(at) && |rows| == |at| && forall k :: 0 <= k < |at| ==> at[k] < |usage| && rows[k] == usage[at[k]]
  }

  lemma {:induction false} DecisionsAreFirst(usage: Log, n: nat) returns (at: seq<nat>)
    requires n <= |usage|
    ensures AreAt(usage[..n], DecisionsOf(usage[..n]), at)
    ensures forall m: nat :: m in at <==> m < n && IsDecisionAt(usage, m)
  {
    if n == 0 {
      at := [];
    } else {
      at := DecisionsAreFirst(usage, n - 1);
      var before, last := DecisionsOf(usage[..n - 1]), usage[n - 1];
      assert usage[..n][..n - 1] == usage[..n - 1];
      assert forall k :: 0 <= k < |at| ==> at[k] in at;
      FirstOfItsId(usage, n - 1, before, at);
      if IsDecisionAt(usage, n - 1) {
        at := at + [n - 1];
      }
    }
  }

  lemma FirstOfItsId(usage: Log, n: nat, before: seq<Record>, at: seq<nat>)
    requires n < |usage| && AreAt(usage[..n], before, at) && forall m: nat :: m in at <==> m < n && IsDecisionAt(usage, m)
    ensures IsDecisionAt(usage, n) <==>
              var r := usage[n];
              r.tool == DecisionTool && r.outcome == Some("recorded") && r.decisionId.Some? && !exists d <- before :: d.decisionId == r.decisionId
  {
    var r := usage[n];
    if r.tool == DecisionTool && r.outcome == Some("recorded") && r.decisionId.Some? {
      var id := r.decisionId.value;
      if m: nat :| m < n && IsRecorded(usage[m], id) {
        var first := FirstRecorded(usage, m, id);
        assert IsDecisionAt(usage, first);
        var k :| 0 <= k < |at| && at[k] == first;
        assert before[k] in before;
      }
      if d :| d in before && d.decisionId == Some(id) {
        var k :| 0 <= k < |before| && before[k] == d;
        assert at[k] in at && IsRecorded(usage[at[k]], id);
      }
    }
  }

  lemma {:induction false} FirstRecorded(usage: Log, m: nat, id: string) returns (first: nat)
    requires m < |usage| && IsRecorded(usage[m], id)
    ensures first <= m && IsRecorded(usage[first], id) && forall k :: 0 <= k < first ==> !IsRecorded(usage[k], id)
    decreases m
  {
    if k: nat :| k < m && IsRecorded(usage[k], id) {
      first := FirstRecorded(usage, k, id);
    } else {
      first := m;
    }
  }

  // ---- the contract of a decision ---------------------------------------------------------

  /** What the effect of a decision has to agree with. */
  ghost predicate EffectAgrees(d: Record) {
    && d.usedFactIds.Some? && d.effect.Some?
    && match d.effect.value
       case "none" =>
         && d.usedFactIds.value == []
         && d.noUseReason in {Some("irrelevant"), Some("already_known"), Some("stale"), Some("conflict"), Some("insufficient")}
       case effect =>
         && effect in {"changed_action", "prevented_error", "confirmed"} && d.usedFactIds.value != [] && d.noUseReason == None
  }

  ghost predicate HasOwnSearch(usage: Log, d: Record, id: string) {
    exists m: nat :: IsSearch(usage, m, id) && usage[m].client == d.client
  }

  ghost predicate WasReturned(usage: Log, ids: seq<string>, fact: string) {
    exists m: nat, id: string :: id in ids && IsSearch(usage, m, id) && usage[m].factIds.Ids? && fact in usage[m].factIds.ids
  }

  /** A decision keeps the contract, given the ids that are resolved: it names its client, different searches of that
      client that found something and are not resolved, and different facts that those returned; its effect agrees. */
  ghost predicate KeepsContract(usage: Log, resolved: set<string>, d: Record) {
    && d.client.Some? && d.searchIds.Ids? && d.searchIds.ids != [] && Distinct(d.searchIds.ids)
    && (forall id <- d.searchIds.ids :: HasOwnSearch(usage, d, id) && id !in resolved)
    && d.usedFactIds.Some? && Distinct(d.usedFactIds.value) && (forall fact <- d.usedFactIds.value :: WasReturned(usage, d.searchIds.ids, fact))
    && EffectAgrees(d)
  }

  lemma NoneTwiceExactly(ids: seq<string>)
    ensures NoneTwice(ids) <==> Distinct(ids)
  {
    if Distinct(ids) {
      forall i | 0 <= i < |ids| ensures ids[i] !in ids[..i] {
      }
    }
    if NoneTwice(ids) {
      forall i, j | 0 <= i < j < |ids| ensures ids[i] != ids[j] {
        assert ids[j] !in ids[..j] && ids[..j][i] == ids[i];
      }
    }
  }

  lemma EffectExactly(d: Record)
    requires d.usedFactIds.Some?
    ensures d.effect.Some? && EffectFits(d.effect.value, d.usedFactIds.value, d.noUseReason) <==> EffectAgrees(d)
  {
  }

  /** How the searches by id are read off the log. */
  ghost predicate IsLookup(usage: Log, byId: map<string, Record>) {
    forall id :: (id in byId <==> exists m: nat :: IsSearch(usage, m, id)) && forall m: nat :: IsSearch(usage, m, id) ==> byId[id] == usage[m]
  }

  lemma LookupIs(usage: Log)
    ensures IsLookup(usage, SearchesOf(Measurable(usage)))
  {
    assert usage[..|usage|] == usage;
    forall id ensures (id in SearchesOf(Measurable(usage)) <==> exists m: nat :: IsSearch(usage, m, id))
                      && forall m: nat :: IsSearch(usage, m, id) ==> SearchesOf(Measurable(usage))[id] == usage[m] {
      SearchesAreLast(usage, |usage|, id);
    }
  }

  lemma JudgeExactly(usage: Log, byId: map<string, Record>, resolved: set<string>, d: Record)
    requires IsLookup(usage, byId)
    ensures Judge(byId, resolved, d) == Accept ==> KeepsContract(usage, resolved, d)
    ensures KeepsContract(usage, resolved, d) ==> Judge(byId, resolved, d) == Accept || Judge(byId, resolved, d) == Verdict.Crash
  {
    if d.searchIds.Ids? && d.usedFactIds.Some? {
      NoneTwiceExactly(d.searchIds.ids);
      NoneTwiceExactly(d.usedFactIds.value);
      EffectExactly(d);
      hide IsSearch, NoneTwice, Distinct, EffectFits, EffectAgrees;
      forall id <- d.searchIds.ids ensures HasOwnSearch(usage, d, id) <==> id in byId && byId[id].client == d.client {
        if id in byId {
          var m: nat :| IsSearch(usage, m, id);
        }
      }
      forall fact ensures WasReturned(usage, d.searchIds.ids, fact) <==> Returned(byId, d.searchIds.ids, fact) {
        ReturnedExactly(usage, byId, d.searchIds.ids, fact);
      }
      hide HasOwnSearch, WasReturned, Returned, IsLookup;
    }
  }

  lemma ReturnedExactly(usage: Log, byId: map<string, Record>, ids: seq<string>, fact: string)
    requires IsLookup(usage, byId)
    ensures WasReturned(usage, ids, fact) <==> Returned(byId, ids, fact)
  {
    if Returned(byId, ids, fact) {
      var id :| id in ids && id in byId && byId[id].factIds.Ids? && fact in byId[id].factIds.ids;
      var m: nat :| IsSearch(usage, m, id);
      assert byId[id] == usage[m];
    }
  }

  // ---- the valid decisions ----------------------------------------------------------------

  /** The ids resolved by the decisions kept before place n. */
  ghost function ResolvedBefore(usage: Log, kept: seq<nat>, n: nat): set<string>
    requires forall m <- kept :: m < |usage|
  {
    set m, id | m in kept && m < n && usage[m].searchIds.Ids? && id in usage[m].searchIds.ids :: id
  }

  /** Of the decisions at these places, those are kept that keep the contract given the ones kept before them. */
  ghost predicate KeepsRightly(usage: Log, at: seq<nat>, kept: seq<nat>) {
    && (forall n <- at :: n < |usage|) && (forall n <- kept :: n < |usage| && n in at)
    && forall n <- at :: n in kept <==> KeepsContract(usage, ResolvedBefore(usage, kept, n), usage[n])
  }

  lemma ResolvedByKept(usage: Log, rows: seq<Record>, kept: seq<nat>, n: nat)
    requires AreAt(usage, rows, kept) && (forall m <- kept :: m < |usage|) && forall m <- kept :: m < n
    ensures ResolvedIn(rows) == ResolvedBefore(usage, kept, n)
  {
    forall id ensures id in ResolvedIn(rows) <==> id in ResolvedBefore(usage, kept, n) {
      if id in ResolvedIn(rows) {
        var d :| d in rows && d.searchIds.Ids? && id in d.searchIds.ids;
        var k :| 0 <= k < |rows| && rows[k] == d;
        assert kept[k] in kept;
      }
      if id in ResolvedBefore(usage, kept, n) {
        var m :| m in kept && m < n && usage[m].searchIds.Ids? && id in usage[m].searchIds.ids;
        var k :| 0 <= k < |kept| && kept[k] == m;
        assert rows[k] in rows;
      }
    }
  }

  lemma LaterLeavesResolved(usage: Log, kept: seq<nat>, m: nat, n: nat)
    requires (forall k <- kept :: k < |usage|) && n <= m < |usage|
    ensures ResolvedBefore(usage, kept + [m], n) == ResolvedBefore(usage, kept, n)
  {
    assert forall k :: k in kept + [m] <==> k in kept || k == m;
  }

  lemma KeepsOneMore(usage: Log, at: seq<nat>, n: nat, kept: seq<nat>, keep: bool)
    requires KeepsRightly(usage, at, kept) && n < |usage| && forall m <- at :: m < n
    requires keep <==> KeepsContract(usage, ResolvedBefore(usage, kept, n), usage[n])
    ensures KeepsRightly(usage, at + [n], if keep then kept + [n] else kept)
  {
    hide KeepsContract, ResolvedBefore;
    assert forall k :: k in at + [n] <==> k in at || k == n;
    assert forall k :: k in kept + [n] <==> k in kept || k == n;
    forall m: nat | m <= n ensures ResolvedBefore(usage, kept + [n], m) == ResolvedBefore(usage, kept, m) {
      LaterLeavesResolved(usage, kept, n, m);
    }
  }

  lemma {:induction false} KeptSoFar(usage: Log, byId: map<string, Record>, decisions: seq<Record>, at: seq<nat>) returns (kept: seq<nat>)
    requires IsLookup(usage, byId) && AreAt(usage, decisions, at) && Validated(byId, decisions).Some?
    ensures AreAt(usage, Validated(byId, decisions).value, kept) && KeepsRightly(usage, at, kept)
  {
    hide IsLookup, Judge, KeepsContract, ResolvedIn, ResolvedBefore;
    if decisions == [] {
      assert AreAt(usage, [], []);
      kept := [];
    } else {
      var j := |decisions| - 1;
      AllButLast(usage, decisions, at);
      var d, n := decisions[j], at[j];
      hide AreAt;
      kept := KeptSoFar(usage, byId, decisions[..j], at[..j]);
      var before := Validated(byId, decisions[..j]).value;
      ResolvedByKept(usage, before, kept, n);
      JudgeExactly(usage, byId, ResolvedIn(before), d);
      KeepsOneMore(usage, at[..j], n, kept, Judge(byId, ResolvedIn(before), d) == Accept);
      assert at == at[..j] + [n];
      hide KeepsRightly, IsLookup;
      if Judge(byId, ResolvedIn(before), d) == Accept {
        KeptIsRising(usage, before, kept, n);
        kept := kept + [n];
      }
    }
  }

  lemma AllButLast(usage: Log, rows: seq<Record>, at: seq<nat>)
    requires AreAt(usage, rows, at) && rows != []
    ensures var j := |rows| - 1;
            && |at| == j + 1 && AreAt(usage, rows[..j], at[..j]) && at[j] < |usage| && rows[j] == usage[at[j]]
            && (forall m <- at[..j] :: m < at[j])
  {
  }

  lemma KeptIsRising(usage: Log, rows: seq<Record>, kept: seq<nat>, n: nat)
    requires AreAt(usage, rows, kept) && n < |usage| && forall m <- kept :: m < n
    ensures AreAt(usage, rows + [usage[n]], kept + [n])
  {
    assert forall k :: 0 <= k < |kept| ==> kept[k] in kept;
  }

  /** The valid decisions of a log are, in order, the first of each id that keep the contract given those before. */
  lemma ValidExactly(usage: Log) returns (kept: seq<nat>)
    requires ValidDecisions(usage).Some?
    ensures AreAt(usage, ValidDecisions(usage).value, kept) && forall n <- kept :: n < |usage|
    ensures forall n: nat :: n in kept <==> IsDecisionAt(usage, n) && KeepsContract(usage, ResolvedBefore(usage, kept, n), usage[n])
  {
    hide IsLookup, IsDecisionAt, KeepsContract, ResolvedBefore;
    assert usage[..|usage|] == usage;
    LookupIs(usage);
    var at := DecisionsAreFirst(usage, |usage|);
    kept := KeptSoFar(usage, SearchesOf(Measurable(usage)), DecisionsOf(usage), at);
    DecisionsAreInside(usage);
  }

  lemma DecisionsAreInside(usage: Log)
    ensures forall n: nat :: IsDecisionAt(usage, n) ==> n < |usage|
  {
  }

  // ---- the counts -------------------------------------------------------------------------

  /** The client a record is counted for. */
  ghost predicate CountsFor(r: Record, client: string) {
    r.client == Some(client) || (r.client == None && client == "unknown")
  }

  ghost predicate Used(d: Record) {
    d.effect in {Some("changed_action"), Some("prevented_error"), Some("confirmed")}
  }

  ghost predicate UsedStrongly(d: Record) {
    d.effect in {Some("changed_action"), Some("prevented_error")}
  }

  ghost predicate ResolvesOne(ds: seq<Record>, r: Record) {
    r.searchId.Some? && exists d <- ds :: d.searchIds.Ids? && r.searchId.value in d.searchIds.ids
  }

  ghost predicate UsedFact(d: Record, fact: string) {
    d.usedFactIds.Some? && fact in d.usedFactIds.value
  }

  ghost predicate ClientCounts(usage: Log, ds: seq<Record>, client: string, row: ClientRow) {
    && row.measurable == |set i: nat | i < |usage| && Found(usage[i]) && usage[i].searchId.Some? && CountsFor(usage[i], client)|
    && row.resolved == |set i: nat | i < |usage| && Found(usage[i]) && CountsFor(usage[i], client) && ResolvesOne(ds, usage[i])|
    && row.adopted == |set i: nat | i < |ds| && Used(ds[i]) && CountsFor(ds[i], client)|
    && row.strong == |set i: nat | i < |ds| && UsedStrongly(ds[i]) && CountsFor(ds[i], client)|
  }

  /** The pairs of a search and a place in its list where it names the fact. */
  ghost function ReturnsOf(usage: Log, fact: string): set<(nat, nat)> {
    set i: nat, k: nat | i < |usage| && Found(usage[i]) && usage[i].searchId.Some? && usage[i].factIds.Ids?
                         && k < |usage[i].factIds.ids| && usage[i].factIds.ids[k] == fact :: (i, k)
  }

  ghost predicate FactCounts(usage: Log, ds: seq<Record>, fact: string, row: FactRow) {
    && row.returned == |ReturnsOf(usage, fact)|
    && row.used == |set i: nat | i < |ds| && UsedFact(ds[i], fact)|
    && row.strong == |set i: nat | i < |ds| && UsedFact(ds[i], fact) && UsedStrongly(ds[i])|
  }

  ghost predicate TotalCounts(usage: Log, ds: seq<Record>, s: Stats) {
    && s.hitSearches == |set i: nat | i < |usage| && Found(usage[i])|
    && s.measurable == |set i: nat | i < |usage| && Found(usage[i]) && usage[i].searchId.Some?|
    && s.resolved == |set i: nat | i < |usage| && Found(usage[i]) && ResolvesOne(ds, usage[i])|
    && s.decisions == |ds|
    && s.adopted == |set i: nat | i < |ds| && Used(ds[i])| && s.strong == |set i: nat | i < |ds| && UsedStrongly(ds[i])|
  }

  lemma KindsExactly(ds: seq<Record>, r: Record, client: string)
    ensures Bucket(r) == client <==> CountsFor(r, client)
    ensures Uses(r) <==> Used(r)
    ensures IsStrong(r) <==> UsedStrongly(r)
    ensures IsResolvedBy(ResolvedIn(ds), r) <==> ResolvesOne(ds, r)
  {
  }

  lemma CountAmong(usage: Log, p: Record -> bool)
    ensures Count(Measurable(usage), p) == |Places(usage, Both(IsMeasurable, p))|
  {
    CountWhere(usage, IsMeasurable, p);
    CountIsPlaces(usage, Both(IsMeasurable, p));
  }

  lemma ClientIsCounted(usage: Log, ds: seq<Record>, client: string)
    ensures ClientCounts(usage, ds, client, ClientRowOf(usage, ds, client))
  {
    hide Count, Measurable, Found, CountsFor, Used, UsedStrongly, ResolvesOne, ResolvedIn, Bucket, Uses, IsStrong, IsMeasurable, IsResolvedBy;
    forall r: Record ensures (Bucket(r) == client <==> CountsFor(r, client)) && (Uses(r) <==> Used(r)) && (IsStrong(r) <==> UsedStrongly(r))
                             && (IsResolvedBy(ResolvedIn(ds), r) <==> ResolvesOne(ds, r)) && (IsMeasurable(r) <==> Found(r) && r.searchId.Some?) {
      KindsExactly(ds, r, client);
      FoundExactly(r);
    }
    ResolvingHasId(ds);
    CountAmong(usage, OfClient(client));
    CountAmong(usage, ResolvedFor(ResolvedIn(ds), client));
    CountIsPlaces(ds, AdoptedFor(client));
    CountIsPlaces(ds, StrongFor(client));
    assert Places(usage, Both(IsMeasurable, OfClient(client))) ==
           set i: nat | i < |usage| && Found(usage[i]) && usage[i].searchId.Some? && CountsFor(usage[i], client);
    assert Places(usage, Both(IsMeasurable, ResolvedFor(ResolvedIn(ds), client))) ==
           set i: nat | i < |usage| && Found(usage[i]) && CountsFor(usage[i], client) && ResolvesOne(ds, usage[i]);
    assert Places(ds, AdoptedFor(client)) == set i: nat | i < |ds| && Used(ds[i]) && CountsFor(ds[i], client);
    assert Places(ds, StrongFor(client)) == set i: nat | i < |ds| && UsedStrongly(ds[i]) && CountsFor(ds[i], client);
  }

  lemma ResolvingHasId(ds: seq<Record>)
    ensures forall r: Record :: ResolvesOne(ds, r) ==> r.searchId.Some?
  {
  }

  ghost function PlacesIn(ids: seq<string>, fact: string, i: nat): set<(nat, nat)> {
    set k: nat | k < |ids| && ids[k] == fact :: (i, k)
  }

  lemma {:induction false} OccurrencesAreCounted(ids: seq<string>, fact: string, i: nat)
    ensures Occurrences(ids, fact) == |PlacesIn(ids, fact, i)|
  {
    if ids == [] {
      assert PlacesIn(ids, fact, i) == {};
    } else {
      var n := |ids| - 1;
      OccurrencesAreCounted(ids[..n], fact, i);
      assert PlacesIn(ids, fact, i) == PlacesIn(ids[..n], fact, i) + if ids[n] == fact then {(i, n)} else {};
    }
  }

  lemma {:induction false} ReturnsAreCounted(usage: Log, fact: string)
    ensures ReturnedOf(Measurable(usage), fact) == |ReturnsOf(usage, fact)|
  {
    if usage == [] {
      assert ReturnsOf(usage, fact) == {};
    } else {
      var n := |usage| - 1;
      var last := usage[n];
      ReturnsAreCounted(usage[..n], fact);
      FoundExactly(last);
      var kept := Measurable(usage[..n]);
      assert (kept + [last])[..|kept|] == kept && kept + [] == kept;
      OneMoreReturn(usage, n, fact);
      if last.factIds.Ids? {
        OccurrencesAreCounted(last.factIds.ids, fact, n);
      }
      hide ReturnsOf, Found, IsMeasurable, Occurrences;
    }
  }

  lemma OneMoreReturn(usage: Log, n: nat, fact: string)
    requires |usage| == n + 1
    ensures var last := usage[n];
            var more := if Found(last) && last.searchId.Some? && last.factIds.Ids?
                        then PlacesIn(last.factIds.ids, fact, n) else {};
            ReturnsOf(usage, fact) == ReturnsOf(usage[..n], fact) + more && ReturnsOf(usage[..n], fact) !! more
  {
    hide Found;
    assert forall i :: 0 <= i < n ==> usage[i] == usage[..n][i];
  }

  lemma FactIsCounted(usage: Log, ds: seq<Record>, fact: string)
    ensures FactCounts(usage, ds, fact, FactRowOf(usage, ds, fact))
  {
    ReturnsAreCounted(usage, fact);
    hide Count, Measurable, ReturnedOf, ReturnsOf, UsedStrongly, IsStrong;
    forall r: Record ensures IsStrong(r) <==> UsedStrongly(r) {
      KindsExactly(ds, r, "");
    }
    CountIsPlaces(ds, UsedFor(fact));
    CountIsPlaces(ds, StrongUseFor(fact));
    assert Places(ds, UsedFor(fact)) == set i: nat | i < |ds| && UsedFact(ds[i], fact);
    assert Places(ds, StrongUseFor(fact)) == set i: nat | i < |ds| && UsedFact(ds[i], fact) && UsedStrongly(ds[i]);
  }

  lemma SearchTotals(usage: Log, ds: seq<Record>)
    ensures Count(usage, IsHit) == |set i: nat | i < |usage| && Found(usage[i])|
    ensures |Measurable(usage)| == |set i: nat | i < |usage| && Found(usage[i]) && usage[i].searchId.Some?|
    ensures Count(Measurable(usage), ResolvedBy(ResolvedIn(ds))) == |set i: nat | i < |usage| && Found(usage[i]) && ResolvesOne(ds, usage[i])|
  {
    WhereIsCounted(usage, IsMeasurable);
    hide Count, Where, Found, ResolvesOne, ResolvedIn, IsMeasurable, IsHit, IsResolvedBy;
    forall r: Record ensures (IsHit(r) <==> Found(r)) && (IsResolvedBy(ResolvedIn(ds), r) <==> ResolvesOne(ds, r))
                             && (IsMeasurable(r) <==> Found(r) && r.searchId.Some?) {
      KindsExactly(ds, r, "");
      FoundExactly(r);
    }
    ResolvingHasId(ds);
    CountIsPlaces(usage, IsHit);
    CountIsPlaces(usage, IsMeasurable);
    CountAmong(usage, ResolvedBy(ResolvedIn(ds)));
    assert Places(usage, IsHit) == set i: nat | i < |usage| && Found(usage[i]);
    assert Places(usage, IsMeasurable) == set i: nat | i < |usage| && Found(usage[i]) && usage[i].searchId.Some?;
    assert Places(usage, Both(IsMeasurable, ResolvedBy(ResolvedIn(ds)))) == set i: nat | i < |usage| && Found(usage[i]) && ResolvesOne(ds, usage[i]);
  }

  lemma DecisionTotals(ds: seq<Record>)
    ensures Count(ds, Uses) == |set i: nat | i < |ds| && Used(ds[i])|
    ensures Count(ds, IsStrong) == |set i: nat | i < |ds| && UsedStrongly(ds[i])|
  {
    hide Count, Used, UsedStrongly, Uses, IsStrong;
    forall r: Record ensures (Uses(r) <==> Used(r)) && (IsStrong(r) <==> UsedStrongly(r)) {
      KindsExactly(ds, r, "");
    }
    CountIsPlaces(ds, Uses);
    CountIsPlaces(ds, IsStrong);
    assert Places(ds, Uses) == set i: nat | i < |ds| && Used(ds[i]);
    assert Places(ds, IsStrong) == set i: nat | i < |ds| && UsedStrongly(ds[i]);
  }

  lemma TotalsAreCounted(usage: Log, s: Stats)
    requires IsStatsOf(usage, s)
    ensures TotalCounts(usage, ValidDecisions(usage).value, s)
  {
    hide Count, Measurable, Found, Used, UsedStrongly, ResolvesOne, ResolvedIn, ValidDecisions, ClientRowOf, FactRowOf;
    SearchTotals(usage, ValidDecisions(usage).value);
    DecisionTotals(ValidDecisions(usage).value);
  }

  /** Every number of the statistics is the count it is meant to be: of searches that found something, of decisions that
      keep the contract, of their effects, and of the facts that were returned and used. */
  lemma StatsAreCounts(usage: Log, s: Stats) returns (kept: seq<nat>)
    requires IsStatsOf(usage, s)
    ensures var ds := ValidDecisions(usage).value;
            && AreAt(usage, ds, kept) && (forall n <- kept :: n < |usage|)
            && (forall n: nat :: n in kept <==> IsDecisionAt(usage, n) && KeepsContract(usage, ResolvedBefore(usage, kept, n), usage[n]))
            && (forall client :: ClientCounts(usage, ds, client, ClientAt(s.clients, client)))
            && (forall fact :: FactCounts(usage, ds, fact, FactAt(s.facts, fact)))
            && TotalCounts(usage, ds, s)
  {
    kept := ValidExactly(usage);
    TotalsAreCounted(usage, s);
    var ds := ValidDecisions(usage).value;
    hide ClientCounts, FactCounts, ClientRowOf, FactRowOf, ValidDecisions, IsDecisionAt, KeepsContract, TotalCounts, AreAt;
    forall client ensures ClientCounts(usage, ds, client, ClientAt(s.clients, client)) {
      ClientIsCounted(usage, ds, client);
    }
    forall fact ensures FactCounts(usage, ds, fact, FactAt(s.facts, fact)) {
      FactIsCounted(usage, ds, fact);
    }
  }
}
