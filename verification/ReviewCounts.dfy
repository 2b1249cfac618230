/** What the numbers of a review summary count, in terms of the reviews alone. */
module ReviewCounts {
  import opened Domain
  import opened Counting
  import opened Ordering
  import opened Reviews
  import opened ReviewSummary

  // ---- successes --------------------------------------------------------------------------

  ghost predicate PassedAll(ratings: Ratings, required: seq<Stage>) {
    && (Trigger in required ==> ratings.trigger == Pass) && (Retrieval in required ==> ratings.retrieval == Pass)
    && (Application in required ==> ratings.application == Pass) && (Action in required ==> ratings.action == Pass)
  }

  /** Evidence of the first tier, a passed action, no failed stage, and every stage passed that the case requires. */
  ghost predicate Achieved(suite: Suite, b: Body) {
    && b.tier.TierA? && b.ratings.action.Pass? && !AStageFailed(b)
    && exists n: nat :: IsCaseOf(suite, b, n) && PassedAll(b.ratings, suite[n].requiredStages)
  }

  lemma SuccessExactly(suite: Suite, r: Review)
    ensures IsSuccess(suite, r) <==> Achieved(suite, r.body)
    ensures IsEvaluable(suite, r) <==> Achieved(suite, r.body) || AStageFailed(r.body)
  {
    CaseIsFirst(suite, r.body);
    if CaseOf(suite, r.body.caseId).Some? {
      var n: nat :| IsCaseOf(suite, r.body, n);
      var required := suite[n].requiredStages;
      assert (forall stage <- required :: r.body.ratings.Of(stage) == Pass) <==> PassedAll(r.body.ratings, required) by {
        forall stage <- required ensures stage == Trigger || stage == Retrieval || stage == Application || stage == Action {
        }
      }
    }
  }

  /** The places of the reviews of a kind that achieved what their case asks for, or that can be judged at all. */
  ghost function Achievements(suite: Suite, reviews: seq<Review>, among: Body -> bool): set<nat> {
    set i: nat | i < |reviews| && among(reviews[i].body) && Achieved(suite, reviews[i].body)
  }

  ghost function Judged(suite: Suite, reviews: seq<Review>, among: Body -> bool): set<nat> {
    set i: nat | i < |reviews| && among(reviews[i].body) && (Achieved(suite, reviews[i].body) || AStageFailed(reviews[i].body))
  }

  ghost function Of(reviews: seq<Review>, among: Body -> bool): set<nat> {
    set i: nat | i < |reviews| && among(reviews[i].body)
  }

  /** A cohort of the reviews of a kind. */
  ghost predicate CountsRightly(suite: Suite, reviews: seq<Review>, among: Body -> bool, c: Cohort) {
    && c.reviews == |Of(reviews, among)|
    && c.evaluable == |Judged(suite, reviews, among)| && c.successes == |Achievements(suite, reviews, among)|
    && c.unknown == c.reviews - c.evaluable && (c.ok <==> c.evaluable > 0)
    && c.rate == (if c.evaluable == 0 then None else Some(c.successes as real / c.evaluable as real))
  }

  lemma CohortCountsRightly(suite: Suite, reviews: seq<Review>, among: Body -> bool, p: Review -> bool)
    requires forall r <- reviews :: p(r) == among(r.body)
    ensures CountsRightly(suite, reviews, among, CohortOf(suite, Where(reviews, p)))
  {
    hide IsSuccess, IsEvaluable, Achieved, AStageFailed, Where, Count;
    var rows := Where(reviews, p);
    var e, s := Evaluable(suite), Success(suite);
    CohortCounts(suite, rows);
    WhereIsCounted(reviews, p);
    WhereIsCounted(rows, e);
    WhereIsCounted(Where(rows, e), s);
    SuccessesAreJudged(suite, rows);
    CountWhere(reviews, p, e);
    CountWhere(reviews, p, s);
    CountIsPlaces(reviews, p);
    CountIsPlaces(reviews, Both(p, e));
    CountIsPlaces(reviews, Both(p, s));
    forall r <- reviews ensures (Both(p, s)(r) <==> among(r.body) && Achieved(suite, r.body))
                                && (Both(p, e)(r) <==> among(r.body) && (Achieved(suite, r.body) || AStageFailed(r.body))) {
      SuccessExactly(suite, r);
    }
    assert Places(reviews, p) == Of(reviews, among);
    assert Places(reviews, Both(p, e)) == Judged(suite, reviews, among);
    assert Places(reviews, Both(p, s)) == Achievements(suite, reviews, among);
  }

  // ---- groups -----------------------------------------------------------------------------

  function CaseId(b: Body): string { b.caseId }
  function Client(b: Body): string { b.client }
  function Week(b: Body): string { b.week }

  function TriggerOf(b: Body): StageResult { b.ratings.trigger }
  function RetrievalOf(b: Body): StageResult { b.ratings.retrieval }
  function ApplicationOf(b: Body): StageResult { b.ratings.application }
  function ActionOf(b: Body): StageResult { b.ratings.action }

  predicate Every(b: Body) { true }

  function With(of: Body -> string, k: string): Body -> bool {
    (b: Body) => of(b) == k
  }

  ghost predicate HasRow<T(!new)>(rows: seq<(string, T)>, k: string) {
    exists i :: 0 <= i < |rows| && rows[i].0 == k
  }

  /** One row for each value of the key, in ascending order, that counts the reviews with this value. */
  ghost predicate GroupsRightly(suite: Suite, reviews: seq<Review>, of: Body -> string, group: Group) {
    && (forall i, j :: 0 <= i < j < |group| ==> Below(group[i].0, group[j].0))
    && (forall r <- reviews :: HasRow(group, of(r.body)))
    && (forall row <- group :: (exists r <- reviews :: of(r.body) == row.0) && CountsRightly(suite, reviews, With(of, row.0), row.1))
  }

  lemma GroupedRightly(suite: Suite, reviews: seq<Review>, key: Key, of: Body -> string)
    requires forall r <- reviews :: key(r) == Some(of(r.body))
    ensures GroupsRightly(suite, reviews, of, GroupedBy(suite, reviews, key))
  {
    hide CohortOf, CountsRightly, Below, HasRow, Where;
    var group, keys := GroupedBy(suite, reviews, key), Sorted(KeysOf(reviews, key));
    forall r <- reviews ensures HasRow(group, of(r.body)) {
      assert of(r.body) in Elements(keys);
      KeyHasRow(suite, reviews, key, keys, of(r.body));
    }
    forall row <- group ensures (exists r <- reviews :: of(r.body) == row.0) && CountsRightly(suite, reviews, With(of, row.0), row.1) {
      var i :| 0 <= i < |group| && group[i] == row;
      assert keys[i] in Elements(keys);
      CohortCountsRightly(suite, reviews, With(of, row.0), WithKey(key, row.0));
    }
  }

  lemma KeyHasRow(suite: Suite, reviews: seq<Review>, key: Key, keys: seq<string>, k: string)
    requires k in keys
    ensures HasRow(GroupOver(suite, reviews, key, keys), k)
  {
    hide CohortOf, Where;
    var i :| 0 <= i < |keys| && keys[i] == k;
    assert GroupOver(suite, reviews, key, keys)[i].0 == k;
  }

  // ---- stages and failures ----------------------------------------------------------------

  ghost function RatedAs(reviews: seq<Review>, of: Body -> StageResult, result: StageResult): set<nat> {
    set i: nat | i < |reviews| && of(reviews[i].body) == result
  }

  ghost predicate StageCounts(reviews: seq<Review>, of: Body -> StageResult, row: StageRow) {
    && row.pass == |RatedAs(reviews, of, Pass)| && row.fail == |RatedAs(reviews, of, Fail)|
    && row.unknown == |RatedAs(reviews, of, Unknown)| && row.notApplicable == |RatedAs(reviews, of, NotApplicable)|
  }

  lemma StageIsCounted(reviews: seq<Review>, stage: Stage, of: Body -> StageResult)
    requires forall b: Body :: b.ratings.Of(stage) == of(b)
    ensures StageCounts(reviews, of, StageRowOf(reviews, stage))
  {
    forall result ensures Count(reviews, Rated(stage, result)) == |RatedAs(reviews, of, result)| {
      CountIsPlaces(reviews, Rated(stage, result));
      assert Places(reviews, Rated(stage, result)) == RatedAs(reviews, of, result);
    }
  }

  ghost function Blamed(reviews: seq<Review>, stage: string): set<nat> {
    set i: nat | i < |reviews| && reviews[i].body.failureStage == Some(stage)
  }

  /** One row for each blamed stage, in ascending order, with how often it was blamed. */
  ghost predicate BlamesRightly(reviews: seq<Review>, failures: seq<(string, int)>) {
    && (forall i, j :: 0 <= i < j < |failures| ==> Below(failures[i].0, failures[j].0))
    && (forall r <- reviews :: r.body.failureStage.Some? ==> HasRow(failures, r.body.failureStage.value))
    && (forall row <- failures :: row.1 == |Blamed(reviews, row.0)| && Blamed(reviews, row.0) != {})
  }

  lemma FailuresAreCounted(reviews: seq<Review>)
    ensures BlamesRightly(reviews, CountsOver(reviews, BY_FAILURE, Sorted(KeysOf(reviews, BY_FAILURE))))
  {
    hide Below, Count, Blamed, WithKey;
    var keys := Sorted(KeysOf(reviews, BY_FAILURE));
    var failures := CountsOver(reviews, BY_FAILURE, keys);
    forall r <- reviews | r.body.failureStage.Some? ensures HasRow(failures, r.body.failureStage.value) {
      assert r.body.failureStage.value in Elements(keys);
      var i :| 0 <= i < |keys| && keys[i] == r.body.failureStage.value;
      assert failures[i].0 == keys[i];
    }
    forall row <- failures ensures row.1 == |Blamed(reviews, row.0)| && Blamed(reviews, row.0) != {} {
      var i :| 0 <= i < |failures| && failures[i] == row;
      assert keys[i] in Elements(keys);
      BlamedIsCounted(reviews, row.0);
    }
  }

  lemma BlamedIsCounted(reviews: seq<Review>, stage: string)
    requires stage in KeysOf(reviews, BY_FAILURE)
    ensures Count(reviews, WithKey(BY_FAILURE, stage)) == |Blamed(reviews, stage)| && Blamed(reviews, stage) != {}
  {
    CountIsPlaces(reviews, WithKey(BY_FAILURE, stage));
    assert Places(reviews, WithKey(BY_FAILURE, stage)) == Blamed(reviews, stage);
    var r :| r in reviews && r.body.failureStage == Some(stage);
    var n :| 0 <= n < |reviews| && reviews[n] == r;
    assert n in Blamed(reviews, stage);
  }

  // ---- improvements -----------------------------------------------------------------------

  /** The review at j replays the one at i, the last with the id it names. */
  ghost predicate IsReplayOf(reviews: seq<Review>, i: nat, j: nat) {
    && i < |reviews| && j < |reviews| && reviews[j].body.replayOf == Some(reviews[i].body.id)
    && forall k :: i < k < |reviews| ==> reviews[k].body.id != reviews[i].body.id
  }

  ghost predicate IsReplay(reviews: seq<Review>, j: nat) {
    exists i: nat :: IsReplayOf(reviews, i, j)
  }

  ghost predicate ReplaysFailure(reviews: seq<Review>, j: nat) {
    exists i: nat :: IsReplayOf(reviews, i, j) && reviews[i].body.failureStage.Some?
  }

  ghost predicate RepeatsFailure(reviews: seq<Review>, j: nat) {
    exists i: nat :: IsReplayOf(reviews, i, j) && reviews[i].body.failureStage.Some?
                     && reviews[i].body.failureStage == reviews[j].body.failureStage
  }

  ghost function ReplaysIn(reviews: seq<Review>): set<nat> {
    set j: nat | j < |reviews| && IsReplay(reviews, j)
  }

  ghost function FailuresReplayed(reviews: seq<Review>): set<nat> {
    set j: nat | j < |reviews| && ReplaysFailure(reviews, j)
  }

  ghost function FailuresRepeated(reviews: seq<Review>): set<nat> {
    set j: nat | j < |reviews| && RepeatsFailure(reviews, j)
  }

  /** The place of the review that the one at j replays. */
  ghost function Replayed(reviews: seq<Review>, j: nat): Option<nat> {
    if exists i: nat :: IsReplayOf(reviews, i, j) then var i: nat :| IsReplayOf(reviews, i, j); Some(i) else None
  }

  /** The microseconds between the first n reviews that are replays and what they replay, added up. */
  ghost function LeadMicros(reviews: seq<Review>, n: nat): int
    requires n <= |reviews|
  {
    if n == 0 then 0
    else
      LeadMicros(reviews, n - 1)
      + match Replayed(reviews, n - 1)
        case Some(i) => reviews[n - 1].body.reviewedAt - reviews[i].body.reviewedAt
        case None => 0
  }

  lemma {:induction false} OriginalsAreLast(reviews: seq<Review>, n: nat, id: string)
    requires n <= |reviews|
    ensures id in Originals(reviews[..n]) <==> exists i :: 0 <= i < n && reviews[i].body.id == id
    ensures id in Originals(reviews[..n]) ==>
              exists i :: 0 <= i < n && reviews[i].body.id == id && Originals(reviews[..n])[id] == reviews[i]
                          && forall k :: i < k < n ==> reviews[k].body.id != id
  {
    if n > 0 {
      assert reviews[..n][..n - 1] == reviews[..n - 1];
      OriginalsAreLast(reviews, n - 1, id);
    }
  }

  /** A review has an original in the store exactly when it replays one, and then it is that one. */
  lemma OriginalExactly(reviews: seq<Review>, j: nat)
    requires j < |reviews|
    ensures var id := reviews[j].body.replayOf;
            id.Some? && id.value in Originals(reviews) <==> Replayed(reviews, j).Some?
    ensures forall i: nat :: IsReplayOf(reviews, i, j) ==>
              Originals(reviews)[reviews[j].body.replayOf.value] == reviews[i] && Replayed(reviews, j) == Some(i)
  {
    assert reviews[..|reviews|] == reviews;
    var id := reviews[j].body.replayOf;
    if id.Some? {
      OriginalsAreLast(reviews, |reviews|, id.value);
      if id.value in Originals(reviews) {
        var i :| 0 <= i < |reviews| && reviews[i].body.id == id.value && Originals(reviews)[id.value] == reviews[i]
                 && forall k :: i < k < |reviews| ==> reviews[k].body.id != id.value;
        assert IsReplayOf(reviews, i, j);
        forall m: nat | IsReplayOf(reviews, m, j) ensures m == i {
        }
      } else {
        forall m: nat ensures !IsReplayOf(reviews, m, j) {
        }
      }
    }
  }

  ghost predicate PairPasses(reviews: seq<Review>, j: nat, p: Pair -> bool) {
    && j < |reviews| && Replayed(reviews, j).Some? && Replayed(reviews, j).value < |reviews|
    && p(Pair(reviews[Replayed(reviews, j).value], reviews[j]))
  }

  ghost function PairPlaces(reviews: seq<Review>, n: nat, p: Pair -> bool): set<nat> {
    set j: nat | j < n && PairPasses(reviews, j, p)
  }

  lemma {:induction false} PairsAreCounted(reviews: seq<Review>, n: nat, p: Pair -> bool)
    requires n <= |reviews|
    ensures Count(PairsOf(Originals(reviews), reviews[..n]), p) == |PairPlaces(reviews, n, p)|
  {
    if n == 0 {
      assert PairPlaces(reviews, n, p) == {};
    } else {
      PairsAreCounted(reviews, n - 1, p);
      OneMorePair(reviews, n - 1);
      OneMorePlace(reviews, n - 1, p);
      hide Originals, Replayed, PairsOf, PairPlaces;
      var before := PairsOf(Originals(reviews), reviews[..n - 1]);
      if Replayed(reviews, n - 1).Some? {
        var pair := Pair(reviews[Replayed(reviews, n - 1).value], reviews[n - 1]);
        assert (before + [pair])[..|before|] == before;
      } else {
        assert before + [] == before;
      }
    }
  }

  lemma OneMorePlace(reviews: seq<Review>, n: nat, p: Pair -> bool)
    ensures PairPlaces(reviews, n + 1, p) == PairPlaces(reviews, n, p) + if PairPasses(reviews, n, p) then {n} else {}
    ensures n !in PairPlaces(reviews, n, p)
  {
    hide PairPasses;
  }

  lemma OneMorePair(reviews: seq<Review>, n: nat)
    requires n < |reviews|
    ensures Replayed(reviews, n).Some? ==> Replayed(reviews, n).value < |reviews|
    ensures PairsOf(Originals(reviews), reviews[..n + 1]) ==
            PairsOf(Originals(reviews), reviews[..n])
            + if Replayed(reviews, n).Some? then [Pair(reviews[Replayed(reviews, n).value], reviews[n])] else []
  {
    OriginalExactly(reviews, n);
    hide Originals;
    assert reviews[..n + 1][..n] == reviews[..n];
    if Replayed(reviews, n).Some? {
      assert IsReplayOf(reviews, Replayed(reviews, n).value, n);
    }
  }

  lemma {:induction false} LeadsAddUp(reviews: seq<Review>, n: nat)
    requires n <= |reviews|
    ensures SumLead(PairsOf(Originals(reviews), reviews[..n])) == LeadMicros(reviews, n) as real / 3600000000.0
  {
    if n > 0 {
      LeadsAddUp(reviews, n - 1);
      OneMorePair(reviews, n - 1);
      hide Originals, Replayed, PairsOf;
      var before := PairsOf(Originals(reviews), reviews[..n - 1]);
      if Replayed(reviews, n - 1).Some? {
        var pair := Pair(reviews[Replayed(reviews, n - 1).value], reviews[n - 1]);
        assert (before + [pair])[..|before|] == before;
      } else {
        assert before + [] == before;
      }
    }
  }

  /** Replays, failures before a replay and repeated failures are counted, their rate and the average of the hours
      from a review to its replay are exact. */
  ghost predicate ImprovesRightly(reviews: seq<Review>, i: Improvements) {
    && i.replays == i.leadCount == |ReplaysIn(reviews)| && i.failedBefore == |FailuresReplayed(reviews)|
    && i.recurrences == |FailuresRepeated(reviews)|
    && i.recurrenceRate == (if i.failedBefore == 0 then None else Some(i.recurrences as real / i.failedBefore as real))
    && i.leadAverage == (if i.replays == 0 then None
                         else Some(LeadMicros(reviews, |reviews|) as real / 3600000000.0 / i.replays as real))
  }

  function AnyPair(): Pair -> bool {
    (pair: Pair) => true
  }

  lemma ImprovementsAreCounted(reviews: seq<Review>)
    ensures ImprovesRightly(reviews, ImprovementsOf(reviews))
  {
    hide Originals, PairsOf, Where, Count, SumLead, LeadMicros, Replayed;
    var n, pairs := |reviews|, PairsOf(Originals(reviews), reviews);
    assert reviews[..n] == reviews;
    PlacesOfPairs(reviews);
    AllCounted(pairs, AnyPair());
    PairsAreCounted(reviews, n, AnyPair());
    PairsAreCounted(reviews, n, FailedBefore);
    PairsAreCounted(reviews, n, Both(FailedBefore, Recurred));
    WhereIsCounted(pairs, FailedBefore);
    CountWhere(pairs, FailedBefore, Recurred);
    LeadsAddUp(reviews, n);
  }

  lemma PlacesOfPairs(reviews: seq<Review>)
    ensures var n := |reviews|;
            && PairPlaces(reviews, n, AnyPair()) == ReplaysIn(reviews)
            && PairPlaces(reviews, n, FailedBefore) == FailuresReplayed(reviews)
            && PairPlaces(reviews, n, Both(FailedBefore, Recurred)) == FailuresRepeated(reviews)
  {
    hide IsReplay, ReplaysFailure, RepeatsFailure, PairPasses;
    forall j: nat | j < |reviews|
      ensures PairPasses(reviews, j, AnyPair()) <==> IsReplay(reviews, j)
      ensures PairPasses(reviews, j, FailedBefore) <==> ReplaysFailure(reviews, j)
      ensures PairPasses(reviews, j, Both(FailedBefore, Recurred)) <==> RepeatsFailure(reviews, j)
    {
      PlaceOfPair(reviews, j);
    }
  }

  lemma PlaceOfPair(reviews: seq<Review>, j: nat)
    requires j < |reviews|
    ensures PairPasses(reviews, j, AnyPair()) <==> IsReplay(reviews, j)
    ensures PairPasses(reviews, j, FailedBefore) <==> ReplaysFailure(reviews, j)
    ensures PairPasses(reviews, j, Both(FailedBefore, Recurred)) <==> RepeatsFailure(reviews, j)
  {
    OriginalExactly(reviews, j);
    if Replayed(reviews, j).Some? {
      assert IsReplayOf(reviews, Replayed(reviews, j).value, j);
    }
  }

  // ---- the summary ------------------------------------------------------------------------

  /** Every number of the summary of any reviews is the count it is meant to be, in terms of the reviews alone. */
  lemma SummaryCounts(suite: Suite, reviews: seq<Review>)
    ensures var a := SummaryOf(suite, reviews);
            && CountsRightly(suite, reviews, Every, Cohort(a.ok, a.reviews, a.evaluable, a.unknown, a.successes, a.rate))
            && GroupsRightly(suite, reviews, CaseId, a.byCase)
            && GroupsRightly(suite, reviews, Client, a.byClient)
            && GroupsRightly(suite, reviews, Week, a.byWeek)
            && StageCounts(reviews, TriggerOf, a.stages.trigger)
            && StageCounts(reviews, RetrievalOf, a.stages.retrieval)
            && StageCounts(reviews, ApplicationOf, a.stages.application)
            && StageCounts(reviews, ActionOf, a.stages.action)
            && BlamesRightly(reviews, a.failures) && ImprovesRightly(reviews, a.improvements)
  {
    hide CohortOf, GroupOver, CountsRightly, GroupsRightly, StageRowOf, StageCounts, BlamesRightly, ImprovesRightly, ImprovementsOf, CountsOver,
      Where, KeysOf, Sorted;
    TotalsAreCounted(suite, reviews);
    GroupsAreCounted(suite, reviews);
    StagesAreCounted(reviews);
    FailuresAreCounted(reviews);
    ImprovementsAreCounted(reviews);
  }

  lemma TotalsAreCounted(suite: Suite, reviews: seq<Review>)
    ensures CountsRightly(suite, reviews, Every, CohortOf(suite, reviews))
  {
    hide CohortOf, CountsRightly, Where;
    WhereAll(reviews);
    CohortCountsRightly(suite, reviews, Every, All());
  }

  lemma GroupsAreCounted(suite: Suite, reviews: seq<Review>)
    ensures GroupsRightly(suite, reviews, CaseId, GroupedBy(suite, reviews, BY_CASE))
    ensures GroupsRightly(suite, reviews, Client, GroupedBy(suite, reviews, BY_CLIENT))
    ensures GroupsRightly(suite, reviews, Week, GroupedBy(suite, reviews, BY_WEEK))
  {
    hide GroupedBy, GroupsRightly;
    GroupedRightly(suite, reviews, BY_CASE, CaseId);
    GroupedRightly(suite, reviews, BY_CLIENT, Client);
    GroupedRightly(suite, reviews, BY_WEEK, Week);
  }

  lemma StagesAreCounted(reviews: seq<Review>)
    ensures StageCounts(reviews, TriggerOf, StageRowOf(reviews, Trigger)) && StageCounts(reviews, RetrievalOf, StageRowOf(reviews, Retrieval))
    ensures StageCounts(reviews, ApplicationOf, StageRowOf(reviews, Application)) && StageCounts(reviews, ActionOf, StageRowOf(reviews, Action))
  {
    hide StageCounts, StageRowOf;
    StageIsCounted(reviews, Trigger, TriggerOf);
    StageIsCounted(reviews, Retrieval, RetrievalOf);
    StageIsCounted(reviews, Application, ApplicationOf);
    StageIsCounted(reviews, Action, ActionOf);
  }

  lemma {:induction false} WhereAll(reviews: seq<Review>)
    ensures Where(reviews, All()) == reviews
  {
    if reviews != [] {
      WhereAll(reviews[..|reviews| - 1]);
    }
  }
}
