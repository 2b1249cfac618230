/** The signed review store: a hash chain under an independently held head, with replays of earlier reviews. */
module Reviews {
  import opened Domain

  // A record hash; ZERO is the predecessor of the first record.
  type Hash = nat
  const ZERO: Hash := 0

  datatype StageResult = Pass | Fail | Unknown | NotApplicable
  datatype Stage = Trigger | Retrieval | Application | Action
  datatype Ratings = Ratings(trigger: StageResult, retrieval: StageResult, application: StageResult, action: StageResult) {
    function Of(stage: Stage): StageResult {
      match stage
      case Trigger => trigger
      case Retrieval => retrieval
      case Application => application
      case Action => action
    }

    predicate AnyFail() {
      trigger == Fail || retrieval == Fail || application == Fail || action == Fail
    }
  }

  datatype Tier = TierA | TierB | TierC

  /** The part of a submission that nothing here reads, but the hash covers. */
  datatype Details = Details(
    reviewer: string, traceId: Option<string>, searchIds: seq<string>, actionIds: seq<string>, evidenceRefs: seq<string>,
    model: string, instruction: string, retriever: string, corpus: string)

  /** Everything that is hashed: the submission, who signed it, the previous record and the signature. offset is the
      distance of the reviewer's clock from UTC, and week the Monday of the local date of reviewedAt. */
  datatype Body = Body(
    id: string, caseId: string, variantId: string, reviewedAt: int, offset: int, week: string, client: string, ratings: Ratings,
    tier: Tier, failureStage: Option<string>, improvementTarget: Option<string>, changeId: Option<string>,
    replayOf: Option<string>, details: Details, recordedBy: string, previousHash: Hash, attestation: string)

  datatype Review = Review(body: Body, recordHash: Hash)

  /** Who may sign, how signatures are checked, how bodies are hashed, and the head the store must end at. */
  datatype Trust = Trust(reviewer: string, verify: Body -> bool, hash: Body -> Hash, head: Hash)

  /** A hash without collisions that no body takes to zero. */
  ghost predicate Collisionless(hash: Body -> Hash) {
    && (forall b, c :: hash(b) == hash(c) ==> b == c)
    && (forall b :: hash(b) != ZERO)
  }

  const FAILURE_STAGES: set<string> := {"trigger", "retrieval", "knowledge", "application", "action", "evidence"}

  /** What parsing a stored review has checked. */
  predicate Parsed(b: Body) {
    && (b.ratings.AnyFail() <==> b.failureStage.Some?)
    && (b.ratings.AnyFail() ==> b.improvementTarget.Some?)
    && (b.failureStage.Some? ==> b.failureStage.value in FAILURE_STAGES)
    && (b.ratings.action == Pass ==> b.tier == TierA)
    && (b.replayOf.Some? ==> b.changeId.Some?)
  }

  predicate Attested(trust: Trust, r: Review) {
    r.body.recordedBy == trust.reviewer && r.recordHash == trust.hash(r.body) && trust.verify(r.body)
  }

  // ---- the history ------------------------------------------------------------------------

  function HeadOf(reviews: seq<Review>): Hash {
    if reviews == [] then ZERO else reviews[|reviews| - 1].recordHash
  }

  ghost predicate Chained(reviews: seq<Review>) {
    forall i :: 0 <= i < |reviews| ==> reviews[i].body.previousHash == HeadOf(reviews[..i])
  }

  ghost predicate UniqueReviews(reviews: seq<Review>) {
    forall i, j :: 0 <= i < j < |reviews| ==> reviews[i].body.id != reviews[j].body.id
  }

  /** j is a later review of the same case and variant that replays i. */
  predicate Replays(reviews: seq<Review>, i: nat, j: nat)
    requires i < |reviews| && j < |reviews|
  {
    var original, replay := reviews[i].body, reviews[j].body;
    && replay.replayOf == Some(original.id)
    && replay.caseId == original.caseId && replay.variantId == original.variantId
    && original.reviewedAt < replay.reviewedAt
  }

  ghost predicate HasOriginal(reviews: seq<Review>, j: nat)
    requires j < |reviews|
  {
    exists i :: 0 <= i < j && Replays(reviews, i, j)
  }

  ghost predicate ReplaysOk(reviews: seq<Review>) {
    forall j :: 0 <= j < |reviews| && reviews[j].body.replayOf.Some? ==> HasOriginal(reviews, j)
  }

  ghost predicate ReplayedOnce(reviews: seq<Review>) {
    forall i, j :: 0 <= i < j < |reviews| && reviews[i].body.replayOf.Some? ==> reviews[i].body.replayOf != reviews[j].body.replayOf
  }

  ghost predicate HistoryOk(reviews: seq<Review>) {
    Chained(reviews) && UniqueReviews(reviews) && ReplaysOk(reviews) && ReplayedOnce(reviews)
  }

  datatype HistoryError =
    | ChainBroken | DuplicateReview(id: string) | UnknownOriginal(id: string) | OtherCase | NotAfter
    | AlreadyReplayed(id: string) | HeadMismatch

  /** Whether the last review may follow the others. */
  ghost predicate MayFollow(reviews: seq<Review>, r: Review) {
    && r.body.previousHash == HeadOf(reviews)
    && (forall x <- reviews :: x.body.id != r.body.id)
    && (r.body.replayOf.Some? ==>
          && HasOriginal(reviews + [r], |reviews|)
          && forall x <- reviews :: x.body.replayOf != r.body.replayOf)
  }

  lemma HistoryExtends(reviews: seq<Review>, r: Review)
    ensures HistoryOk(reviews + [r]) <==> HistoryOk(reviews) && MayFollow(reviews, r)
  {
    hide HeadOf, Chained, UniqueReviews, ReplaysOk, ReplayedOnce, HasOriginal;
    ChainedExtends(reviews, r);
    UniqueExtends(reviews, r);
    ReplaysExtends(reviews, r);
    ReplayedOnceExtends(reviews, r);
  }

  lemma ReplaysExtends(reviews: seq<Review>, r: Review)
    ensures ReplaysOk(reviews + [r]) <==>
            ReplaysOk(reviews) && (r.body.replayOf.Some? ==> HasOriginal(reviews + [r], |reviews|))
  {
    hide HasOriginal;
    var u, n := reviews + [r], |reviews|;
    forall j | 0 <= j < n ensures HasOriginal(u, j) <==> HasOriginal(reviews, j) {
      OriginalStays(reviews, r, j);
    }
    assert u[n] == r && forall j :: 0 <= j < n ==> u[j] == reviews[j];
  }

  lemma OriginalStays(reviews: seq<Review>, r: Review, j: nat)
    requires j < |reviews|
    ensures HasOriginal(reviews + [r], j) <==> HasOriginal(reviews, j)
  {
    var u := reviews + [r];
    assert forall i :: 0 <= i < j ==> (Replays(u, i, j) <==> Replays(reviews, i, j)) by {
      assert u[j] == reviews[j] && forall i :: 0 <= i < j ==> u[i] == reviews[i];
    }
    hide Replays;
  }

  lemma ChainedExtends(reviews: seq<Review>, r: Review)
    ensures Chained(reviews + [r]) <==> Chained(reviews) && r.body.previousHash == HeadOf(reviews)
  {
    var u, n := reviews + [r], |reviews|;
    assert u[n] == r && u[..n] == reviews;
    assert forall i :: 0 <= i < n ==> u[i] == reviews[i] && u[..i] == reviews[..i];
  }

  lemma UniqueExtends(reviews: seq<Review>, r: Review)
    ensures UniqueReviews(reviews + [r]) <==> UniqueReviews(reviews) && (forall x <- reviews :: x.body.id != r.body.id)
  {
    var u, n := reviews + [r], |reviews|;
    assert u[n] == r && forall i :: 0 <= i < n ==> u[i] == reviews[i];
  }

  lemma ReplayedOnceExtends(reviews: seq<Review>, r: Review)
    ensures ReplayedOnce(reviews + [r]) <==>
            ReplayedOnce(reviews) && (r.body.replayOf.Some? ==> forall x <- reviews :: x.body.replayOf != r.body.replayOf)
  {
    var u, n := reviews + [r], |reviews|;
    assert u[n] == r && forall i :: 0 <= i < n ==> u[i] == reviews[i];
  }

  // ---- validating a store -----------------------------------------------------------------

  /** Refuses a history exactly when it is not a chain of distinct reviews with sound replays up to the head. */
  method ValidateReviewHistory(reviews: seq<Review>, trustedHead: Hash) returns (error: Option<HistoryError>)
    ensures error.None? <==> HistoryOk(reviews) && HeadOf(reviews) == trustedHead
  {
    hide HistoryOk, Seen, MayFollow, UniqueReviews;
    var seen: map<string, Review> := map[];
    var replayed: set<string> := {};
    var previousHash := ZERO;
    NothingRead();
    for n := 0 to |reviews|
      invariant HistoryOk(reviews[..n]) && previousHash == HeadOf(reviews[..n])
      invariant Seen(reviews[..n], seen, replayed)
    {
      IdsAreUnique(reviews[..n]);
      error := Follow(reviews[..n], reviews[n], seen, replayed, previousHash);
      assert reviews[..n] + [reviews[n]] == reviews[..n + 1];
      HistoryExtends(reviews[..n], reviews[n]);
      if error.Some? {
        BrokenStays(reviews, n + 1);
        return;
      }
      FollowerIsNew(reviews[..n], reviews[n]);
      SeenExtends(reviews[..n], reviews[n], seen, replayed);
      var r := reviews[n];
      if r.body.replayOf.Some? {
        replayed := replayed + {r.body.replayOf.value};
      }
      seen := seen[r.body.id := r];
      previousHash := r.recordHash;
    }
    assert reviews[..|reviews|] == reviews;
    return if previousHash != trustedHead then Some(HeadMismatch) else None;
  }

  lemma NothingRead()
    ensures HistoryOk([]) && HeadOf([]) == ZERO && Seen([], map[], {})
  {
  }

  lemma IdsAreUnique(reviews: seq<Review>)
    requires HistoryOk(reviews)
    ensures UniqueReviews(reviews)
  {
  }

  lemma FollowerIsNew(reviews: seq<Review>, r: Review)
    requires MayFollow(reviews, r)
    ensures forall x <- reviews :: x.body.id != r.body.id
  {
  }

  /** The dictionaries kept while reading. */
  ghost predicate Seen(reviews: seq<Review>, seen: map<string, Review>, replayed: set<string>) {
    && (forall id <- seen :: seen[id] in reviews && seen[id].body.id == id)
    && (forall r <- reviews :: r.body.id in seen && seen[r.body.id] == r)
    && (forall id :: id in replayed <==> exists r <- reviews :: r.body.replayOf == Some(id))
  }

  lemma SeenExtends(reviews: seq<Review>, r: Review, seen: map<string, Review>, replayed: set<string>)
    requires Seen(reviews, seen, replayed) && forall x <- reviews :: x.body.id != r.body.id
    ensures Seen(reviews + [r], seen[r.body.id := r], if r.body.replayOf.Some? then replayed + {r.body.replayOf.value} else replayed)
  {
    assert forall x :: x in reviews + [r] <==> x in reviews || x == r;
  }

  method Follow(ghost reviews: seq<Review>, r: Review, seen: map<string, Review>, replayed: set<string>, previousHash: Hash)
    returns (error: Option<HistoryError>)
    requires UniqueReviews(reviews) && previousHash == HeadOf(reviews) && Seen(reviews, seen, replayed)
    ensures error.None? <==> MayFollow(reviews, r)
  {
    if r.body.previousHash != previousHash {
      return Some(ChainBroken);
    }
    if r.body.id in seen {
      return Some(DuplicateReview(r.body.id));
    }
    if r.body.replayOf.Some? {
      OriginalIsSeen(reviews, r, seen, replayed);
      var id := r.body.replayOf.value;
      if id !in seen {
        return Some(UnknownOriginal(id));
      }
      var original := seen[id];
      if original.body.caseId != r.body.caseId || original.body.variantId != r.body.variantId {
        return Some(OtherCase);
      }
      if r.body.reviewedAt <= original.body.reviewedAt {
        return Some(NotAfter);
      }
      if id in replayed {
        return Some(AlreadyReplayed(id));
      }
    }
    return None;
  }

  lemma OriginalIsSeen(reviews: seq<Review>, r: Review, seen: map<string, Review>, replayed: set<string>)
    requires Seen(reviews, seen, replayed) && r.body.replayOf.Some?
    ensures var id := r.body.replayOf.value;
            HasOriginal(reviews + [r], |reviews|) <==>
              id in seen && seen[id].body.caseId == r.body.caseId && seen[id].body.variantId == r.body.variantId
              && seen[id].body.reviewedAt < r.body.reviewedAt
  {
    var id, u := r.body.replayOf.value, reviews + [r];
    if HasOriginal(u, |reviews|) {
      var i :| 0 <= i < |reviews| && Replays(u, i, |reviews|);
      assert reviews[i] in reviews && u[i] == reviews[i];
    }
    if id in seen && seen[id].body.caseId == r.body.caseId && seen[id].body.variantId == r.body.variantId
       && seen[id].body.reviewedAt < r.body.reviewedAt {
      var i :| 0 <= i < |reviews| && reviews[i] == seen[id];
      assert Replays(u, i, |reviews|);
    }
  }

  lemma {:induction false} BrokenStays(reviews: seq<Review>, n: nat)
    requires n <= |reviews| && !HistoryOk(reviews[..n])
    ensures !HistoryOk(reviews)
    decreases |reviews| - n
  {
    if n == |reviews| {
      assert reviews[..n] == reviews;
    } else {
      assert reviews[..n + 1] == reviews[..n] + [reviews[n]];
      HistoryExtends(reviews[..n], reviews[n]);
      BrokenStays(reviews, n + 1);
    }
  }

  // ---- the suite --------------------------------------------------------------------------

  datatype Case = Case(id: string, requiredStages: seq<Stage>, variants: seq<string>)
  type Suite = seq<Case>

  function CaseOf(suite: Suite, id: string): Option<Case> {
    if suite == [] then None else if suite[0].id == id then Some(suite[0]) else CaseOf(suite[1..], id)
  }

  function StageNamed(name: string): Option<Stage> {
    if name == "trigger" then Some(Trigger)
    else if name == "retrieval" then Some(Retrieval)
    else if name == "application" then Some(Application)
    else if name == "action" then Some(Action)
    else None
  }

  /** The review names a case and variant of the suite, rates what the case requires, and blames a failed stage. */
  predicate FitsSuite(suite: Suite, b: Body) {
    && CaseOf(suite, b.caseId).Some?
    && b.variantId in CaseOf(suite, b.caseId).value.variants
    && (forall stage <- CaseOf(suite, b.caseId).value.requiredStages :: b.ratings.Of(stage) != NotApplicable)
    && b.ratings.action != NotApplicable
    && (b.failureStage.Some? && StageNamed(b.failureStage.value).Some? ==>
          b.ratings.Of(StageNamed(b.failureStage.value).value) == Fail)
  }

  /** The first case of the suite with the id of the review. */
  ghost predicate IsCaseOf(suite: Suite, b: Body, n: nat) {
    n < |suite| && suite[n].id == b.caseId && forall m :: 0 <= m < n ==> suite[m].id != b.caseId
  }

  lemma {:induction false} CaseIsFirst(suite: Suite, b: Body)
    ensures CaseOf(suite, b.caseId).Some? <==> exists n: nat :: IsCaseOf(suite, b, n)
    ensures forall n: nat :: IsCaseOf(suite, b, n) ==> CaseOf(suite, b.caseId) == Some(suite[n])
  {
    if suite != [] {
      CaseIsFirst(suite[1..], b);
      if suite[0].id == b.caseId {
        assert IsCaseOf(suite, b, 0);
      } else {
        forall n: nat | IsCaseOf(suite, b, n) ensures IsCaseOf(suite[1..], b, n - 1) && suite[1..][n - 1] == suite[n] {
          assert forall m :: 0 <= m < n - 1 ==> suite[1..][m] == suite[m + 1];
        }
        forall n: nat | IsCaseOf(suite[1..], b, n) ensures IsCaseOf(suite, b, n + 1) {
          assert forall m :: 0 < m < n + 1 ==> suite[m] == suite[1..][m - 1];
        }
      }
    }
  }

  ghost predicate AStageFailed(b: Body) {
    Fail in {b.ratings.trigger, b.ratings.retrieval, b.ratings.application, b.ratings.action}
  }

  /** What a review is checked for, field by field: who signed it, that its evidence and its blame are consistent, and
      that it rates what its case asks for. */
  ghost predicate IsSound(trust: Trust, suite: Suite, r: Review) {
    var b := r.body;
    && b.recordedBy == trust.reviewer && r.recordHash == trust.hash(b) && trust.verify(b)
    && (if AStageFailed(b) then b.failureStage.Some? && b.improvementTarget.Some? else b.failureStage.None?)
    && (b.ratings.action.Pass? ==> b.tier.TierA?) && (b.replayOf.Some? ==> b.changeId.Some?) && !b.ratings.action.NotApplicable?
    && (b.failureStage.Some? ==>
          match b.failureStage.value
          case "trigger" => b.ratings.trigger.Fail?
          case "retrieval" => b.ratings.retrieval.Fail?
          case "application" => b.ratings.application.Fail?
          case "action" => b.ratings.action.Fail?
          case other => other == "knowledge" || other == "evidence")
    && exists n: nat :: IsCaseOf(suite, b, n) && b.variantId in suite[n].variants && RatesAll(b.ratings, suite[n].requiredStages)
  }

  ghost predicate RatesAll(ratings: Ratings, required: seq<Stage>) {
    && (Trigger in required ==> ratings.trigger != NotApplicable) && (Retrieval in required ==> ratings.retrieval != NotApplicable)
    && (Application in required ==> ratings.application != NotApplicable) && (Action in required ==> ratings.action != NotApplicable)
  }

  lemma SoundExactly(trust: Trust, suite: Suite, r: Review)
    ensures Parsed(r.body) && Attested(trust, r) && FitsSuite(suite, r.body) <==> IsSound(trust, suite, r)
  {
    var b := r.body;
    CaseIsFirst(suite, b);
    if CaseOf(suite, b.caseId).Some? {
      var n: nat :| IsCaseOf(suite, b, n);
      var required := suite[n].requiredStages;
      assert forall m: nat :: IsCaseOf(suite, b, m) ==> suite[m] == suite[n];
      assert (forall stage <- required :: b.ratings.Of(stage) != NotApplicable) <==> RatesAll(b.ratings, required) by {
        forall stage <- required ensures stage == Trigger || stage == Retrieval || stage == Application || stage == Action {
        }
      }
    }
  }

  /** A store is accepted if and only if every review in it is sound and together they are a history up to the head. */
  lemma AcceptedExactly(trust: Trust, suite: Suite, reviews: seq<Review>)
    ensures AcceptedFor(trust, suite, reviews) <==>
              (forall r <- reviews :: IsSound(trust, suite, r)) && HistoryOk(reviews) && HeadOf(reviews) == trust.head
  {
    hide HistoryOk, IsSound, Parsed, Attested, FitsSuite;
    forall r <- reviews ensures Parsed(r.body) && Attested(trust, r) && FitsSuite(suite, r.body) <==> IsSound(trust, suite, r) {
      SoundExactly(trust, suite, r);
    }
  }

  // ---- the store --------------------------------------------------------------------------

  ghost predicate Accepted(trust: Trust, reviews: seq<Review>) {
    && (forall r <- reviews :: Parsed(r.body) && Attested(trust, r))
    && HistoryOk(reviews) && HeadOf(reviews) == trust.head
  }

  ghost predicate AcceptedFor(trust: Trust, suite: Suite, reviews: seq<Review>) {
    Accepted(trust, reviews) && forall r <- reviews :: FitsSuite(suite, r.body)
  }

  class ReviewStore {
    /** None until the file exists. */
    var stored: Option<seq<Review>>

    constructor ()
      ensures stored == None
    {
      stored := None;
    }

    method ReadReviews(trust: Trust, suite: Suite) returns (reviews: Option<seq<Review>>)
      ensures reviews.Some? <==> AcceptedFor(trust, suite, if stored.Some? then stored.value else [])
      ensures reviews.Some? ==> reviews.value == if stored.Some? then stored.value else []
    {
      if stored.None? {
        return if trust.head == ZERO then Some([]) else None;
      }
      var found := stored.value;
      if exists r <- found :: !(Parsed(r.body) && Attested(trust, r)) {
        return None;
      }
      var error := ValidateReviewHistory(found, trust.head);
      if error.Some? || exists r <- found :: !FitsSuite(suite, r.body) {
        return None;
      }
      return Some(found);
    }

    /** Adds a signed review that extends the store under its present head; anything else leaves the records alone. */
    method AppendReview(trust: Trust, suite: Suite, review: Review) returns (ok: bool)
      requires Parsed(review.body)
      modifies this
      ensures var existing := if old(stored).Some? then old(stored).value else [];
              && (ok <==> AcceptedFor(trust, suite, existing) && Attested(trust, review) && FitsSuite(suite, review.body)
                          && MayFollow(existing, review))
              && (ok ==> stored == Some(existing + [review]))
              && (!ok ==> stored == old(stored) || (old(stored) == None && stored == Some([])))
    {
      hide FitsSuite, Parsed, Attested, HistoryOk, MayFollow;
      if !FitsSuite(suite, review.body) || !Attested(trust, review) {
        return false;
      }
      var existing := if stored.Some? then stored.value else [];
      stored := Some(existing);
      if exists r <- existing :: !(Parsed(r.body) && Attested(trust, r)) {
        return false;
      }
      var error := ValidateReviewHistory(existing, trust.head);
      if error.Some? {
        return false;
      }
      FollowsHead(existing, review);
      if review.body.previousHash != HeadOf(existing) {
        return false;
      }
      HistoryExtends(existing, review);
      error := ValidateReviewHistory(existing + [review], review.recordHash);
      assert HeadOf(existing + [review]) == review.recordHash;
      if error.Some? || exists r <- existing :: !FitsSuite(suite, r.body) {
        return false;
      }
      stored := Some(existing + [review]);
      return true;
    }
  }

  lemma FollowsHead(reviews: seq<Review>, r: Review)
    ensures MayFollow(reviews, r) ==> r.body.previousHash == HeadOf(reviews)
  {
  }

  // ---- uniqueness -------------------------------------------------------------------------

  ghost predicate Hashed(hash: Body -> Hash, reviews: seq<Review>) {
    forall i :: 0 <= i < |reviews| ==> reviews[i].recordHash == hash(reviews[i].body)
  }

  lemma HeadIsZero(hash: Body -> Hash, xs: seq<Review>)
    requires Collisionless(hash) && Hashed(hash, xs)
    ensures HeadOf(xs) == ZERO <==> xs == []
  {
  }

  lemma SplitLast(hash: Body -> Hash, xs: seq<Review>)
    requires Chained(xs) && Hashed(hash, xs) && xs != []
    ensures var n := |xs| - 1;
            && Chained(xs[..n]) && Hashed(hash, xs[..n]) && xs == xs[..n] + [xs[n]]
            && xs[n].body.previousHash == HeadOf(xs[..n]) && HeadOf(xs) == xs[n].recordHash == hash(xs[n].body)
  {
    var n := |xs| - 1;
    assert xs == xs[..n] + [xs[n]];
    ChainedExtends(xs[..n], xs[n]);
  }

  lemma {:induction false} ChainIsUnique(hash: Body -> Hash, xs: seq<Review>, ys: seq<Review>)
    requires Collisionless(hash) && Chained(xs) && Chained(ys) && HeadOf(xs) == HeadOf(ys)
    requires Hashed(hash, xs) && Hashed(hash, ys)
    ensures xs == ys
  {
    HeadIsZero(hash, xs);
    HeadIsZero(hash, ys);
    if xs != [] {
      SplitLast(hash, xs);
      SplitLast(hash, ys);
      var m, n := |xs| - 1, |ys| - 1;
      assert xs[m] == ys[n];
      hide Collisionless, Chained, Hashed, HeadOf;
      ChainIsUnique(hash, xs[..m], ys[..n]);
    }
  }

  /** One trusted head accepts one store: none is a truncation, a reordering or a rewrite of another. */
  lemma OneStorePerHead(trust: Trust, xs: seq<Review>, ys: seq<Review>)
    requires Collisionless(trust.hash) && Accepted(trust, xs) && Accepted(trust, ys)
    ensures xs == ys
  {
    ChainIsUnique(trust.hash, xs, ys);
  }

  /** An appended store is the only one its new head accepts, and the old head no longer accepts it. */
  lemma AppendMovesTheHead(trust: Trust, suite: Suite, existing: seq<Review>, review: Review, ys: seq<Review>)
    requires Collisionless(trust.hash) && AcceptedFor(trust, suite, existing) && Parsed(review.body)
    requires Attested(trust, review) && FitsSuite(suite, review.body) && MayFollow(existing, review)
    ensures AcceptedFor(trust.(head := review.recordHash), suite, existing + [review])
    ensures !Accepted(trust, existing + [review])
    ensures Accepted(trust.(head := review.recordHash), ys) <==> ys == existing + [review]
  {
    var u, moved := existing + [review], trust.(head := review.recordHash);
    HistoryExtends(existing, review);
    forall r <- u ensures Parsed(r.body) && Attested(moved, r) && FitsSuite(suite, r.body) {
      assert r in existing || r == review;
    }
    assert HeadOf(u) == review.recordHash;
    if Accepted(trust, u) {
      OneStorePerHead(trust, u, existing);
    }
    if Accepted(moved, ys) {
      OneStorePerHead(moved, ys, u);
    }
  }

  // ---- replay chains ----------------------------------------------------------------------

  /** A review that replays nothing, then a replay of it, a replay of that one, and so on. */
  ghost predicate ReplayChain(reviews: seq<Review>, chain: seq<nat>) {
    && chain != [] && (forall k :: 0 <= k < |chain| ==> chain[k] < |reviews|)
    && reviews[chain[0]].body.replayOf.None?
    && (forall k :: 0 < k < |chain| ==> reviews[chain[k]].body.replayOf == Some(reviews[chain[k - 1]].body.id))
  }

  lemma LinkIsReplay(reviews: seq<Review>, i: nat, j: nat)
    requires HistoryOk(reviews) && i < |reviews| && j < |reviews| && reviews[j].body.replayOf == Some(reviews[i].body.id)
    ensures i < j && Replays(reviews, i, j)
  {
    assert HasOriginal(reviews, j);
    var k :| 0 <= k < j && Replays(reviews, k, j);
    assert k == i;
  }

  /** Along a replay chain places and times strictly increase, within one case and variant. */
  lemma {:induction false} ChainIncreases(reviews: seq<Review>, chain: seq<nat>, k: nat, n: nat)
    requires HistoryOk(reviews) && ReplayChain(reviews, chain) && k < n < |chain|
    ensures chain[k] < chain[n]
    ensures reviews[chain[k]].body.reviewedAt < reviews[chain[n]].body.reviewedAt
    ensures reviews[chain[k]].body.caseId == reviews[chain[n]].body.caseId
    ensures reviews[chain[k]].body.variantId == reviews[chain[n]].body.variantId
    decreases n - k
  {
    hide HistoryOk;
    LinkIsReplay(reviews, chain[n - 1], chain[n]);
    if k < n - 1 {
      ChainIncreases(reviews, chain, k, n - 1);
    }
  }

  /** Two replay chains that share a review agree up to it. */
  lemma {:induction false} ChainsAgree(reviews: seq<Review>, c: seq<nat>, d: seq<nat>, i: nat, j: nat)
    requires HistoryOk(reviews) && ReplayChain(reviews, c) && ReplayChain(reviews, d)
    requires i < |c| && j < |d| && c[i] == d[j]
    ensures i == j && c[..i + 1] == d[..j + 1]
    decreases i
  {
    hide Chained, ReplaysOk, ReplayedOnce, HasOriginal;
    OnlyTheFirstIsNoReplay(reviews, c, i);
    OnlyTheFirstIsNoReplay(reviews, d, j);
    if i > 0 {
      assert reviews[c[i - 1]].body.id == reviews[d[j - 1]].body.id;
      assert c[i - 1] == d[j - 1];
      ChainsAgree(reviews, c, d, i - 1, j - 1);
      assert c[..i + 1] == c[..i] + [c[i]] && d[..j + 1] == d[..j] + [d[j]];
    }
  }

  lemma OnlyTheFirstIsNoReplay(reviews: seq<Review>, chain: seq<nat>, k: nat)
    requires ReplayChain(reviews, chain) && k < |chain|
    ensures reviews[chain[k]].body.replayOf == if k == 0 then None else Some(reviews[chain[k - 1]].body.id)
  {
  }

  /** A chain has at most one continuation, so chains never branch. */
  lemma ChainsNeverBranch(reviews: seq<Review>, c: seq<nat>, i: nat, j: nat)
    requires HistoryOk(reviews) && ReplayChain(reviews, c + [i]) && ReplayChain(reviews, c + [j]) && c != []
    ensures i == j
  {
    var n := |c|;
    assert (c + [i])[n] == i && (c + [j])[n] == j;
    assert (c + [i])[n - 1] == c[n - 1] && (c + [j])[n - 1] == c[n - 1];
    assert reviews[i].body.replayOf == reviews[j].body.replayOf;
  }

  /** Every review is on a replay chain. */
  lemma {:induction false} EveryReviewIsOnAChain(reviews: seq<Review>, j: nat) returns (chain: seq<nat>)
    requires HistoryOk(reviews) && j < |reviews|
    ensures ReplayChain(reviews, chain) && chain[|chain| - 1] == j
    decreases j
  {
    hide Chained, UniqueReviews, ReplayedOnce;
    if reviews[j].body.replayOf.None? {
      chain := [j];
    } else {
      assert HasOriginal(reviews, j);
      var i :| 0 <= i < j && Replays(reviews, i, j);
      var before := EveryReviewIsOnAChain(reviews, i);
      chain := before + [j];
      ChainExtends(reviews, before, i, j);
    }
  }

  lemma ChainExtends(reviews: seq<Review>, before: seq<nat>, i: nat, j: nat)
    requires ReplayChain(reviews, before) && before[|before| - 1] == i && i < |reviews| && j < |reviews|
    requires reviews[j].body.replayOf == Some(reviews[i].body.id)
    ensures ReplayChain(reviews, before + [j])
  {
  }
}
