/** The aggregate of reviewed workflows, and the independent check the dashboard makes before it shows one. */
module ReviewSummary {
  import opened Domain
  import opened Counting
  import opened Ordering
  import opened Reviews

  datatype Cohort = Cohort(ok: bool, reviews: int, evaluable: int, unknown: int, successes: int, rate: Option<real>)

  /** A JSON object with distinct keys, in the order it is written. */
  type Group = seq<(string, Cohort)>

  datatype StageRow = StageRow(pass: int, fail: int, unknown: int, notApplicable: int)
  datatype Stages = Stages(trigger: StageRow, retrieval: StageRow, application: StageRow, action: StageRow)

  datatype Improvements = Improvements(
    replays: int, failedBefore: int, recurrences: int, recurrenceRate: Option<real>, leadCount: int, leadAverage: Option<real>)

  datatype Aggregate = Aggregate(
    ok: bool, reviews: int, evaluable: int, unknown: int, successes: int, rate: Option<real>, stages: Stages,
    failures: seq<(string, int)>, byCase: Group, byClient: Group, byWeek: Group, improvements: Improvements)

  // ---- the dashboard's check --------------------------------------------------------------

  /** The tolerance of the dashboard, one part in 10^12. */
  const TOLERANCE: real := 0.000000000001

  function Abs(x: real): real {
    if x < 0.0 then -x else x
  }

  predicate RateMatches(rate: Option<real>, numerator: int, denominator: int) {
    if denominator == 0 then rate == None
    else rate.Some? && 0.0 <= rate.value <= 1.0 && Abs(rate.value - numerator as real / denominator as real) < TOLERANCE
  }

  predicate CohortIsValid(row: Cohort) {
    && row.reviews >= 0 && row.evaluable >= 0 && row.unknown >= 0 && row.successes >= 0
    && row.evaluable + row.unknown == row.reviews && row.successes <= row.evaluable
    && row.ok == (row.evaluable > 0)
    && RateMatches(row.rate, row.successes, row.evaluable)
  }

  function Total(group: Group, of: Cohort -> int): int {
    if group == [] then 0 else Total(group[..|group| - 1], of) + of(group[|group| - 1].1)
  }

  function ReviewsOf(c: Cohort): int { c.reviews }
  function EvaluableOf(c: Cohort): int { c.evaluable }
  function UnknownOf(c: Cohort): int { c.unknown }
  function SuccessesOf(c: Cohort): int { c.successes }

  predicate CohortGroupIsValid(group: Group, value: Aggregate) {
    && (value.reviews == 0 <==> group == [])
    && (forall row <- group :: CohortIsValid(row.1))
    && Total(group, ReviewsOf) == value.reviews
    && Total(group, EvaluableOf) == value.evaluable
    && Total(group, UnknownOf) == value.unknown
    && Total(group, SuccessesOf) == value.successes
  }

  predicate ImprovementsAreValid(i: Improvements, reviews: int) {
    && i.replays >= 0 && i.failedBefore >= 0 && i.recurrences >= 0
    && i.replays <= reviews && i.failedBefore <= i.replays && i.recurrences <= i.failedBefore
    && RateMatches(i.recurrenceRate, i.recurrences, i.failedBefore)
    && i.leadCount >= 0 && i.leadCount == i.replays
    && (if i.leadCount == 0 then i.leadAverage == None else i.leadAverage.Some? && i.leadAverage.value >= 0.0)
  }

  predicate StageRowIsValid(row: StageRow, reviews: int) {
    && row.pass >= 0 && row.fail >= 0 && row.unknown >= 0 && row.notApplicable >= 0
    && row.pass + row.fail + row.unknown + row.notApplicable == reviews
  }

  function TotalCount(rows: seq<(string, int)>): int {
    if rows == [] then 0 else TotalCount(rows[..|rows| - 1]) + rows[|rows| - 1].1
  }

  predicate WorkflowAggregateIsValid(value: Aggregate) {
    && value.reviews >= 0 && value.evaluable >= 0 && value.unknown >= 0 && value.successes >= 0
    && value.evaluable + value.unknown == value.reviews && value.successes <= value.evaluable
    && value.ok == (value.evaluable > 0) && RateMatches(value.rate, value.successes, value.evaluable)
    && StageRowIsValid(value.stages.trigger, value.reviews) && StageRowIsValid(value.stages.retrieval, value.reviews)
    && StageRowIsValid(value.stages.application, value.reviews) && StageRowIsValid(value.stages.action, value.reviews)
    && (forall row <- value.failures :: row.0 in FAILURE_STAGES && row.1 >= 0)
    && TotalCount(value.failures) == value.evaluable - value.successes
    && CohortGroupIsValid(value.byCase, value) && CohortGroupIsValid(value.byClient, value)
    && CohortGroupIsValid(value.byWeek, value)
    && ImprovementsAreValid(value.improvements, value.reviews)
  }

  // ---- the summary ------------------------------------------------------------------------

  predicate IsSuccess(suite: Suite, r: Review) {
    var b := r.body;
    && b.tier == TierA && b.ratings.action == Pass && !b.ratings.AnyFail()
    && CaseOf(suite, b.caseId).Some?
    && forall stage <- CaseOf(suite, b.caseId).value.requiredStages :: b.ratings.Of(stage) == Pass
  }

  predicate IsEvaluable(suite: Suite, r: Review) {
    IsSuccess(suite, r) || r.body.ratings.AnyFail()
  }

  function Evaluable(suite: Suite): Review -> bool {
    (r: Review) => IsEvaluable(suite, r)
  }

  function Success(suite: Suite): Review -> bool {
    (r: Review) => IsSuccess(suite, r)
  }

  function Rate(numerator: nat, denominator: nat): Option<real> {
    if denominator == 0 then None else Some(numerator as real / denominator as real)
  }

  function CohortOf(suite: Suite, rows: seq<Review>): Cohort {
    var judged := Where(rows, Evaluable(suite));
    var passed := Where(judged, Success(suite));
    Cohort(judged != [], |rows|, |judged|, |rows| - |judged|, |passed|, Rate(|passed|, |judged|))
  }

  function Rated(stage: Stage, result: StageResult): Review -> bool {
    (r: Review) => r.body.ratings.Of(stage) == result
  }

  function StageRowOf(reviews: seq<Review>, stage: Stage): StageRow {
    StageRow(Count(reviews, Rated(stage, Pass)), Count(reviews, Rated(stage, Fail)),
             Count(reviews, Rated(stage, Unknown)), Count(reviews, Rated(stage, NotApplicable)))
  }

  type Key = Review -> Option<string>

  predicate HasKey(key: Key, k: string, r: Review) {
    key(r) == Some(k)
  }

  function WithKey(key: Key, k: string): Review -> bool {
    (r: Review) => HasKey(key, k, r)
  }

  function KeysOf(reviews: seq<Review>, key: Key): set<string> {
    set r <- reviews | key(r).Some? :: key(r).value
  }

  const BY_CASE: Key := (r: Review) => Some(r.body.caseId)
  const BY_CLIENT: Key := (r: Review) => Some(r.body.client)
  const BY_WEEK: Key := (r: Review) => Some(r.body.week)
  const BY_FAILURE: Key := (r: Review) => r.body.failureStage

  ghost function GroupOver(suite: Suite, reviews: seq<Review>, key: Key, keys: seq<string>): Group {
    seq(|keys|, i requires 0 <= i < |keys| => (keys[i], CohortOf(suite, Where(reviews, WithKey(key, keys[i])))))
  }

  /** One cohort per key, in the order of the keys. */
  ghost function GroupedBy(suite: Suite, reviews: seq<Review>, key: Key): Group {
    GroupOver(suite, reviews, key, Sorted(KeysOf(reviews, key)))
  }

  ghost function CountsOver(reviews: seq<Review>, key: Key, keys: seq<string>): seq<(string, int)> {
    seq(|keys|, i requires 0 <= i < |keys| => (keys[i], Count(reviews, WithKey(key, keys[i]))))
  }

  /** The reviews by id; of two with one id the later counts. */
  function Originals(reviews: seq<Review>): map<string, Review> {
    if reviews == [] then map[]
    else Originals(reviews[..|reviews| - 1])[reviews[|reviews| - 1].body.id := reviews[|reviews| - 1]]
  }

  datatype Pair = Pair(before: Review, after: Review)

  function PairsOf(originals: map<string, Review>, reviews: seq<Review>): seq<Pair> {
    if reviews == [] then []
    else
      var last := reviews[|reviews| - 1];
      PairsOf(originals, reviews[..|reviews| - 1])
      + if last.body.replayOf.Some? && last.body.replayOf.value in originals
        then [Pair(originals[last.body.replayOf.value], last)] else []
  }

  const MICROSECONDS_PER_HOUR: real := 3600000000.0

  function LeadTime(pair: Pair): real {
    (pair.after.body.reviewedAt - pair.before.body.reviewedAt) as real / MICROSECONDS_PER_HOUR
  }

  function SumLead(pairs: seq<Pair>): real {
    if pairs == [] then 0.0 else SumLead(pairs[..|pairs| - 1]) + LeadTime(pairs[|pairs| - 1])
  }

  predicate FailedBefore(pair: Pair) {
    pair.before.body.failureStage.Some?
  }

  predicate Recurred(pair: Pair) {
    pair.before.body.failureStage.Some? && pair.before.body.failureStage == pair.after.body.failureStage
  }

  function ImprovementsOf(reviews: seq<Review>): Improvements {
    var pairs := PairsOf(Originals(reviews), reviews);
    var failed := Where(pairs, FailedBefore);
    var recurrences := Count(failed, Recurred);
    Improvements(|pairs|, |failed|, recurrences, Rate(recurrences, |failed|), |pairs|,
                 if pairs == [] then None else Some(SumLead(pairs) / |pairs| as real))
  }

  ghost function SummaryOf(suite: Suite, reviews: seq<Review>): Aggregate {
    var c := CohortOf(suite, reviews);
    Aggregate(c.ok, c.reviews, c.evaluable, c.unknown, c.successes, c.rate,
              Stages(StageRowOf(reviews, Trigger), StageRowOf(reviews, Retrieval),
                     StageRowOf(reviews, Application), StageRowOf(reviews, Action)),
              CountsOver(reviews, BY_FAILURE, Sorted(KeysOf(reviews, BY_FAILURE))),
              GroupedBy(suite, reviews, BY_CASE), GroupedBy(suite, reviews, BY_CLIENT), GroupedBy(suite, reviews, BY_WEEK),
              ImprovementsOf(reviews))
  }

  // ---- a partition counts everything once -------------------------------------------------

  function Keyed(key: Key): Review -> bool {
    (r: Review) => key(r).Some?
  }

  /** How the counts per key add up. */
  ghost function SumOver(reviews: seq<Review>, key: Key, p: Review -> bool, keys: seq<string>): nat {
    if keys == [] then 0
    else SumOver(reviews, key, p, keys[..|keys| - 1])
         + Count(reviews, Both(WithKey(key, keys[|keys| - 1]), p))
  }

  lemma {:induction false} SumOfNone(key: Key, p: Review -> bool, keys: seq<string>)
    ensures SumOver([], key, p, keys) == 0
  {
    if keys != [] {
      SumOfNone(key, p, keys[..|keys| - 1]);
    }
  }

  lemma {:induction false} SumOfOneMore(reviews: seq<Review>, r: Review, key: Key, p: Review -> bool, keys: seq<string>)
    requires Distinct(keys)
    ensures SumOver(reviews + [r], key, p, keys) ==
            SumOver(reviews, key, p, keys) + if key(r).Some? && key(r).value in keys && p(r) then 1 else 0
  {
    if keys != [] {
      var n := |keys| - 1;
      SumOfOneMore(reviews, r, key, p, keys[..n]);
      var q := Both(WithKey(key, keys[n]), p);
      assert (reviews + [r])[..|reviews|] == reviews;
      assert Count(reviews + [r], q) == Count(reviews, q) + if q(r) then 1 else 0;
      assert keys == keys[..n] + [keys[n]];
    }
  }

  /** Distinct keys that cover all reviews count each once. */
  lemma {:induction false} PartitionCounts(reviews: seq<Review>, key: Key, p: Review -> bool, keys: seq<string>)
    requires Distinct(keys) && forall r <- reviews :: key(r).Some? ==> key(r).value in keys
    ensures SumOver(reviews, key, p, keys) == Count(reviews, Both(Keyed(key), p))
  {
    if reviews == [] {
      SumOfNone(key, p, keys);
    } else {
      var n := |reviews| - 1;
      PartitionCounts(reviews[..n], key, p, keys);
      SumOfOneMore(reviews[..n], reviews[n], key, p, keys);
      assert reviews == reviews[..n] + [reviews[n]];
    }
  }

  // ---- cohorts ----------------------------------------------------------------------------

  lemma RateIsExact(numerator: nat, denominator: nat)
    requires numerator <= denominator
    ensures RateMatches(Rate(numerator, denominator), numerator, denominator)
  {
    if denominator > 0 {
      var x, y := numerator as real, denominator as real;
      assert x <= y && 0.0 < y;
      assert x / y <= y / y == 1.0;
    }
  }

  lemma CountsMakeCohort(reviews: nat, evaluable: nat, successes: nat)
    requires successes <= evaluable <= reviews
    ensures CohortIsValid(Cohort(evaluable > 0, reviews, evaluable, reviews - evaluable, successes, Rate(successes, evaluable)))
  {
    hide Rate, RateMatches;
    RateIsExact(successes, evaluable);
  }

  lemma SuccessesAreJudged(suite: Suite, rows: seq<Review>)
    ensures Count(Where(rows, Evaluable(suite)), Success(suite)) == Count(rows, Success(suite))
  {
    hide IsSuccess, Where, Count;
    var e, s := Evaluable(suite), Success(suite);
    CountWhere(rows, e, s);
    CountSame(rows, Both(e, s), s);
  }

  lemma CohortCounts(suite: Suite, rows: seq<Review>)
    ensures var c := CohortOf(suite, rows);
            && CohortIsValid(c) && c.reviews == |rows|
            && c.evaluable == Count(rows, Evaluable(suite)) && c.successes == Count(rows, Success(suite))
  {
    hide RateMatches, Rate, Where, Count, Evaluable, Success, CohortIsValid;
    var e, s := Evaluable(suite), Success(suite);
    var judged := Where(rows, e);
    WhereIsCounted(rows, e);
    WhereIsCounted(judged, s);
    SuccessesAreJudged(suite, rows);
    CountsMakeCohort(|rows|, |judged|, |Where(judged, s)|);
  }

  /** of is what p counts, for any cohort. */
  ghost predicate Measures(suite: Suite, of: Cohort -> int, p: Review -> bool) {
    forall rows :: of(CohortOf(suite, rows)) == Count(rows, p)
  }

  lemma MeasuresKey(suite: Suite, reviews: seq<Review>, key: Key, k: string, of: Cohort -> int, p: Review -> bool)
    requires Measures(suite, of, p)
    ensures of(CohortOf(suite, Where(reviews, WithKey(key, k)))) == Count(reviews, Both(WithKey(key, k), p))
  {
    hide CohortOf, Count, Where;
    CountWhere(reviews, WithKey(key, k), p);
  }

  lemma {:induction false} TotalIsSum(suite: Suite, reviews: seq<Review>, key: Key, keys: seq<string>, of: Cohort -> int, p: Review -> bool)
    requires Measures(suite, of, p)
    ensures Total(GroupOver(suite, reviews, key, keys), of) == SumOver(reviews, key, p, keys)
  {
    hide CohortOf, Measures, Where, Count, WithKey;
    if keys != [] {
      var n := |keys| - 1;
      TotalIsSum(suite, reviews, key, keys[..n], of, p);
      assert GroupOver(suite, reviews, key, keys)[..n] == GroupOver(suite, reviews, key, keys[..n]);
      MeasuresKey(suite, reviews, key, keys[n], of, p);
    }
  }

  lemma {:induction false} TotalUnknown(group: Group)
    requires forall row <- group :: CohortIsValid(row.1)
    ensures Total(group, UnknownOf) == Total(group, ReviewsOf) - Total(group, EvaluableOf)
  {
    if group != [] {
      TotalUnknown(group[..|group| - 1]);
      assert CohortIsValid(group[|group| - 1].1);
    }
  }

  function All(): Review -> bool {
    (r: Review) => true
  }

  lemma FieldsMeasure(suite: Suite)
    ensures Measures(suite, ReviewsOf, All()) && Measures(suite, EvaluableOf, Evaluable(suite)) && Measures(suite, SuccessesOf, Success(suite))
  {
    hide CohortOf, CohortIsValid, Where, Count, Evaluable, Success;
    forall rows ensures ReviewsOf(CohortOf(suite, rows)) == Count(rows, All())
                        && EvaluableOf(CohortOf(suite, rows)) == Count(rows, Evaluable(suite))
                        && SuccessesOf(CohortOf(suite, rows)) == Count(rows, Success(suite)) {
      CohortCounts(suite, rows);
      AllCounted(rows, All());
    }
  }

  /** Every grouping of the reviews adds up to the totals. */
  lemma GroupAddsUp(suite: Suite, reviews: seq<Review>, key: Key)
    requires forall r <- reviews :: key(r).Some?
    ensures CohortGroupIsValid(GroupedBy(suite, reviews, key), SummaryOf(suite, reviews))
  {
    var keys := Sorted(KeysOf(reviews, key));
    AscendingIsDistinct(keys);
    KeysCover(reviews, key, keys);
    hide CohortOf, CohortIsValid, Sorted, KeysOf, Total, Distinct;
    RowsAreValid(suite, reviews, key, keys);
    TotalsMatch(suite, reviews, key, keys);
    TotalUnknown(GroupOver(suite, reviews, key, keys));
    CohortCounts(suite, reviews);
    CohortIsComplete(CohortOf(suite, reviews));
  }

  lemma RowsAreValid(suite: Suite, reviews: seq<Review>, key: Key, keys: seq<string>)
    ensures forall row <- GroupOver(suite, reviews, key, keys) :: CohortIsValid(row.1)
  {
    hide CohortOf, CohortIsValid, Where, WithKey;
    forall rows ensures CohortIsValid(CohortOf(suite, rows)) {
      CohortCounts(suite, rows);
    }
  }

  lemma TotalsMatch(suite: Suite, reviews: seq<Review>, key: Key, keys: seq<string>)
    requires Distinct(keys) && forall r <- reviews :: key(r).Some? && key(r).value in keys
    ensures var group, c := GroupOver(suite, reviews, key, keys), CohortOf(suite, reviews);
            && Total(group, ReviewsOf) == c.reviews && Total(group, EvaluableOf) == c.evaluable
            && Total(group, SuccessesOf) == c.successes
  {
    hide CohortOf, CohortIsValid, Evaluable, Success, Measures, Where, Count, Total, GroupOver, Distinct;
    FieldsMeasure(suite);
    CohortCounts(suite, reviews);
    AddsUp(suite, reviews, key, keys, ReviewsOf, All());
    AllCounted(reviews, All());
    AddsUp(suite, reviews, key, keys, EvaluableOf, Evaluable(suite));
    AddsUp(suite, reviews, key, keys, SuccessesOf, Success(suite));
  }

  lemma CohortIsComplete(c: Cohort)
    requires CohortIsValid(c)
    ensures c.unknown == c.reviews - c.evaluable
  {
  }

  lemma KeysCover(reviews: seq<Review>, key: Key, keys: seq<string>)
    requires Elements(keys) == KeysOf(reviews, key) && forall r <- reviews :: key(r).Some?
    ensures forall r <- reviews :: key(r).value in keys
    ensures reviews == [] <==> keys == []
  {
    forall r <- reviews ensures key(r).value in keys {
      assert key(r).value in Elements(keys);
    }
    NoElements(keys);
    if reviews != [] {
      assert reviews[0] in reviews;
    }
  }

  lemma AddsUp(suite: Suite, reviews: seq<Review>, key: Key, keys: seq<string>, of: Cohort -> int, p: Review -> bool)
    requires Measures(suite, of, p)
    requires Distinct(keys) && forall r <- reviews :: key(r).Some? && key(r).value in keys
    ensures Total(GroupOver(suite, reviews, key, keys), of) == Count(reviews, p)
  {
    TotalIsSum(suite, reviews, key, keys, of, p);
    PartitionCounts(reviews, key, p, keys);
    CountSame(reviews, Both(Keyed(key), p), p);
  }

  // ---- stages and failures ----------------------------------------------------------------

  lemma {:induction false} StageRowAddsUp(reviews: seq<Review>, stage: Stage)
    ensures StageRowIsValid(StageRowOf(reviews, stage), |reviews|)
  {
    if reviews != [] {
      StageRowAddsUp(reviews[..|reviews| - 1], stage);
    }
  }

  lemma {:induction false} CountsAddUp(reviews: seq<Review>, key: Key, keys: seq<string>)
    ensures TotalCount(CountsOver(reviews, key, keys)) == SumOver(reviews, key, All(), keys)
  {
    if keys != [] {
      var n := |keys| - 1;
      CountsAddUp(reviews, key, keys[..n]);
      assert CountsOver(reviews, key, keys)[..n] == CountsOver(reviews, key, keys[..n]);
      CountSame(reviews, WithKey(key, keys[n]), Both(WithKey(key, keys[n]), All()));
    }
  }

  function Failed(): Review -> bool {
    (r: Review) => r.body.failureStage.Some?
  }

  /** A parsed review is evaluable as a success or as a failure, never both, and a failure always has a stage. */
  lemma {:induction false} FailuresAreTheRest(suite: Suite, reviews: seq<Review>)
    requires forall r <- reviews :: Parsed(r.body)
    ensures Count(reviews, Failed()) == Count(reviews, Evaluable(suite)) - Count(reviews, Success(suite))
  {
    if reviews != [] {
      FailuresAreTheRest(suite, reviews[..|reviews| - 1]);
      assert Parsed(reviews[|reviews| - 1].body);
    }
  }

  lemma FailuresAddUp(suite: Suite, reviews: seq<Review>)
    requires forall r <- reviews :: Parsed(r.body)
    ensures var keys := Sorted(KeysOf(reviews, BY_FAILURE));
            && (forall row <- CountsOver(reviews, BY_FAILURE, keys) :: row.0 in FAILURE_STAGES && row.1 >= 0)
            && TotalCount(CountsOver(reviews, BY_FAILURE, keys)) == Count(reviews, Evaluable(suite)) - Count(reviews, Success(suite))
  {
    var keys := Sorted(KeysOf(reviews, BY_FAILURE));
    AscendingIsDistinct(keys);
    forall k <- keys ensures k in FAILURE_STAGES {
      assert k in Elements(keys);
      var r :| r in reviews && BY_FAILURE(r) == Some(k);
    }
    forall r <- reviews | BY_FAILURE(r).Some? ensures BY_FAILURE(r).value in keys {
      assert BY_FAILURE(r).value in Elements(keys);
    }
    CountsAddUp(reviews, BY_FAILURE, keys);
    PartitionCounts(reviews, BY_FAILURE, All(), keys);
    CountSame(reviews, Both(Keyed(BY_FAILURE), All()), Failed());
    FailuresAreTheRest(suite, reviews);
  }

  // ---- improvements -----------------------------------------------------------------------

  lemma {:induction false} OriginalsAreReviews(reviews: seq<Review>, id: string)
    requires id in Originals(reviews)
    ensures Originals(reviews)[id] in reviews && Originals(reviews)[id].body.id == id
  {
    var n := |reviews| - 1;
    if reviews[n].body.id != id {
      OriginalsAreReviews(reviews[..n], id);
    }
  }

  lemma {:induction false} PairsAreReplays(originals: map<string, Review>, reviews: seq<Review>)
    ensures |PairsOf(originals, reviews)| <= |reviews|
    ensures forall pair <- PairsOf(originals, reviews) ::
              pair.after in reviews && pair.after.body.replayOf.Some? && pair.after.body.replayOf.value in originals
              && pair.before == originals[pair.after.body.replayOf.value]
  {
    if reviews != [] {
      PairsAreReplays(originals, reviews[..|reviews| - 1]);
    }
  }

  lemma {:induction false} LeadAdds(pairs: seq<Pair>)
    requires forall pair <- pairs :: LeadTime(pair) >= 0.0
    ensures SumLead(pairs) >= 0.0
  {
    if pairs != [] {
      LeadAdds(pairs[..|pairs| - 1]);
    }
  }

  lemma LaterLeads(pair: Pair)
    requires pair.before.body.reviewedAt < pair.after.body.reviewedAt
    ensures LeadTime(pair) >= 0.0
  {
  }

  lemma ReplaysLead(reviews: seq<Review>, pair: Pair)
    requires HistoryOk(reviews) && pair in PairsOf(Originals(reviews), reviews)
    ensures LeadTime(pair) >= 0.0
  {
    PairsAreReplays(Originals(reviews), reviews);
    var id := pair.after.body.replayOf.value;
    OriginalsAreReviews(reviews, id);
    var i :| 0 <= i < |reviews| && reviews[i] == pair.before;
    var j :| 0 <= j < |reviews| && reviews[j] == pair.after;
    LinkIsReplay(reviews, i, j);
    LaterLeads(pair);
  }

  lemma Quotient(x: real, y: real)
    requires x >= 0.0 && y > 0.0
    ensures x / y >= 0.0
  {
  }

  lemma AverageLeads(reviews: seq<Review>)
    requires HistoryOk(reviews) && PairsOf(Originals(reviews), reviews) != []
    ensures var pairs := PairsOf(Originals(reviews), reviews); SumLead(pairs) / |pairs| as real >= 0.0
  {
    hide HistoryOk, Originals, PairsOf, LeadTime, SumLead;
    var pairs := PairsOf(Originals(reviews), reviews);
    forall pair <- pairs ensures LeadTime(pair) >= 0.0 {
      ReplaysLead(reviews, pair);
    }
    LeadAdds(pairs);
    Quotient(SumLead(pairs), |pairs| as real);
  }

  lemma ImprovementsHold(reviews: seq<Review>)
    requires HistoryOk(reviews)
    ensures ImprovementsAreValid(ImprovementsOf(reviews), |reviews|)
  {
    hide HistoryOk, Originals, PairsOf, Where, Count, Rate, RateMatches, LeadTime, SumLead;
    var pairs := PairsOf(Originals(reviews), reviews);
    var failed := Where(pairs, FailedBefore);
    PairsAreReplays(Originals(reviews), reviews);
    WhereIsCounted(pairs, FailedBefore);
    WhereIsCounted(failed, Recurred);
    RateIsExact(Count(failed, Recurred), |failed|);
    if pairs != [] {
      AverageLeads(reviews);
    }
  }

  /** Whatever store the reader accepts, its summary passes the dashboard's check. */
  lemma SummaryMeetsItsChecker(trust: Trust, suite: Suite, reviews: seq<Review>)
    requires AcceptedFor(trust, suite, reviews)
    ensures WorkflowAggregateIsValid(SummaryOf(suite, reviews))
  {
    hide CohortOf, StageRowOf, CountsOver, GroupedBy, ImprovementsOf, HistoryOk, CohortGroupIsValid, ImprovementsAreValid,
      StageRowIsValid, RateMatches, TotalCount, KeysOf, FitsSuite, Parsed, Where, Count, Rate, Evaluable, Success, Sorted;
    CohortCounts(suite, reviews);
    StageRowAddsUp(reviews, Trigger);
    StageRowAddsUp(reviews, Retrieval);
    StageRowAddsUp(reviews, Application);
    StageRowAddsUp(reviews, Action);
    FailuresAddUp(suite, reviews);
    GroupAddsUp(suite, reviews, BY_CASE);
    GroupAddsUp(suite, reviews, BY_CLIENT);
    GroupAddsUp(suite, reviews, BY_WEEK);
    ImprovementsHold(reviews);
  }

  // ---- the summary as it is computed ------------------------------------------------------

  /** Collects the rows of each key, in the order they were read. */
  method RowsByKey(reviews: seq<Review>, key: Key) returns (rows: map<string, seq<Review>>)
    ensures rows.Keys == KeysOf(reviews, key)
    ensures forall k <- rows :: rows[k] == Where(reviews, WithKey(key, k))
  {
    hide Where, KeysOf, WithKey;
    rows := map[];
    NoRows(key);
    for n := 0 to |reviews|
      invariant rows.Keys == KeysOf(reviews[..n], key)
      invariant forall k :: RowsAt(rows, k) == Where(reviews[..n], WithKey(key, k))
    {
      KeysOfMore(reviews, n, key);
      WhereMore(reviews, n, key);
      var k := key(reviews[n]);
      if k.Some? {
        rows := rows[k.value := RowsAt(rows, k.value) + [reviews[n]]];
      }
    }
    assert reviews[..|reviews|] == reviews;
    forall k <- rows ensures rows[k] == Where(reviews, WithKey(key, k)) {
      assert RowsAt(rows, k) == rows[k];
    }
  }

  function RowsAt(rows: map<string, seq<Review>>, k: string): seq<Review> {
    if k in rows then rows[k] else []
  }

  lemma NoRows(key: Key)
    ensures KeysOf([], key) == {} && forall k :: Where([], WithKey(key, k)) == []
  {
  }

  lemma KeysOfMore(reviews: seq<Review>, n: nat, key: Key)
    requires n < |reviews|
    ensures KeysOf(reviews[..n + 1], key) ==
            KeysOf(reviews[..n], key) + if key(reviews[n]).Some? then {key(reviews[n]).value} else {}
  {
    assert forall r :: r in reviews[..n + 1] <==> r in reviews[..n] || r == reviews[n];
  }

  lemma WhereMore(reviews: seq<Review>, n: nat, key: Key)
    requires n < |reviews|
    ensures forall k :: Where(reviews[..n + 1], WithKey(key, k)) ==
                        Where(reviews[..n], WithKey(key, k)) + if key(reviews[n]) == Some(k) then [reviews[n]] else []
  {
    assert reviews[..n + 1][..n] == reviews[..n];
  }

  method Grouped(suite: Suite, reviews: seq<Review>, key: Key) returns (group: Group)
    ensures group == GroupedBy(suite, reviews, key)
  {
    var rows := RowsByKey(reviews, key);
    var keys := Sort(rows.Keys);
    assert forall k <- keys :: k in Elements(keys);
    group := seq(|keys|, i requires 0 <= i < |keys| => (keys[i], CohortOf(suite, rows[keys[i]])));
  }

  method FailureStages(reviews: seq<Review>) returns (failures: seq<(string, int)>)
    ensures failures == CountsOver(reviews, BY_FAILURE, Sorted(KeysOf(reviews, BY_FAILURE)))
  {
    hide Count, KeysOf, WithKey;
    var counts: map<string, nat> := map[];
    NothingCounted();
    for n := 0 to |reviews|
      invariant counts.Keys == KeysOf(reviews[..n], BY_FAILURE)
      invariant forall k :: (if k in counts then counts[k] else 0) == Count(reviews[..n], WithKey(BY_FAILURE, k))
    {
      CountOneStage(reviews, n);
      KeysOfMore(reviews, n, BY_FAILURE);
      var stage := reviews[n].body.failureStage;
      if stage.Some? {
        counts := counts[stage.value := (if stage.value in counts then counts[stage.value] else 0) + 1];
      }
    }
    assert reviews[..|reviews|] == reviews;
    var keys := Sort(counts.Keys);
    assert forall k <- keys :: k in Elements(keys);
    failures := seq(|keys|, i requires 0 <= i < |keys| => (keys[i], counts[keys[i]]));
  }

  lemma NothingCounted()
    ensures KeysOf([], BY_FAILURE) == {} && forall k :: Count([], WithKey(BY_FAILURE, k)) == 0
  {
  }

  lemma CountOneStage(reviews: seq<Review>, n: nat)
    requires n < |reviews|
    ensures forall k :: Count(reviews[..n + 1], WithKey(BY_FAILURE, k)) ==
                        Count(reviews[..n], WithKey(BY_FAILURE, k)) + if BY_FAILURE(reviews[n]) == Some(k) then 1 else 0
  {
    forall k ensures Count(reviews[..n + 1], WithKey(BY_FAILURE, k)) ==
                     Count(reviews[..n], WithKey(BY_FAILURE, k)) + if BY_FAILURE(reviews[n]) == Some(k) then 1 else 0 {
      CountOneMore(reviews, n, WithKey(BY_FAILURE, k));
    }
  }

  method Improve(reviews: seq<Review>) returns (improvements: Improvements)
    ensures improvements == ImprovementsOf(reviews)
  {
    var originals := Originals(reviews);
    var pairs: seq<Pair> := [];
    var lead := 0.0;
    for n := 0 to |reviews|
      invariant pairs == PairsOf(originals, reviews[..n]) && lead == SumLead(pairs)
    {
      assert reviews[..n + 1][..n] == reviews[..n];
      var id := reviews[n].body.replayOf;
      if id.Some? && id.value in originals {
        var pair := Pair(originals[id.value], reviews[n]);
        assert (pairs + [pair])[..|pairs|] == pairs;
        pairs := pairs + [pair];
        lead := lead + LeadTime(pair);
      }
    }
    assert reviews[..|reviews|] == reviews;
    var failed := Where(pairs, FailedBefore);
    var recurrences := CountOf(failed, Recurred);
    return Improvements(|pairs|, |failed|, recurrences, Rate(recurrences, |failed|), |pairs|,
                        if pairs == [] then None else Some(lead / |pairs| as real));
  }

  /** A review outside the suite ends the summary. */
  method SummarizeReviews(suite: Suite, reviews: seq<Review>) returns (summary: Option<Aggregate>)
    ensures summary.Some? <==> forall r <- reviews :: FitsSuite(suite, r.body)
    ensures summary.Some? ==> summary.value == SummaryOf(suite, reviews)
  {
    if exists r <- reviews :: !FitsSuite(suite, r.body) {
      return None;
    }
    hide FitsSuite, CohortOf, StageRowOf, CountsOver, GroupedBy, ImprovementsOf;
    var total := CohortOf(suite, reviews);
    var failures := FailureStages(reviews);
    var byCase := Grouped(suite, reviews, BY_CASE);
    var byClient := Grouped(suite, reviews, BY_CLIENT);
    var byWeek := Grouped(suite, reviews, BY_WEEK);
    var improvements := Improve(reviews);
    return Some(Aggregate(total.ok, total.reviews, total.evaluable, total.unknown, total.successes, total.rate,
                          Stages(StageRowOf(reviews, Trigger), StageRowOf(reviews, Retrieval),
                                 StageRowOf(reviews, Application), StageRowOf(reviews, Action)),
                          failures, byCase, byClient, byWeek, improvements));
  }
}
