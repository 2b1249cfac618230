/** Two runs that end wrongly. In one a request ends applied although nothing it did ever reaches the remote: the
    server stops between the commit and the push, and the next apply takes the commit in its own clone for the proof.
    In the other it ends stale although it replaced its fact: the push lands unheard, the clone goes back to what it
    last fetched, and the next apply finds the fact changed by nobody else but the first one. */
module FeedbackStranded {
  import opened Domain
  import opened Feedback
  import opened GitClone
  import opened FeedbackGuard
  import opened FeedbackWorld
  import opened FeedbackRuns
  import opened FeedbackApply

  const ID := "request"
  const FACT := "fact"
  const NEWER := "newer"
  const BASE := File("old", true, None)
  const FILES := map[FACT := BASE]
  const PROPOSAL := Proposal("new", "why", "how", [], "", "because")

  function At(state: State, proposal: Option<Proposal>, replacement: Option<string>): Items {
    map[ID := Request(FACT, BASE, "fix", state, proposal, replacement)]
  }

  const CHANGE := Change(Some(ID), {FACT}, Some(NEWER), "new")
  const START := Repo(0, FILES, {})
  const MOVED := Repo(1, FILES["other" := BASE], {})

  const SUBMIT := Submit(ID, FACT, BASE, Logic, "fix")
  const SUBMITTING := [Boot, RecoverDone, RequeueDone] + [SUBMIT, StartRun(ID), FinishRun(ID, Some(PROPOSAL))]
  const STOPPED := [Claim(ID), Look(ID), BeginAdd(ID, false, false, NEWER, "new")] + [Commit(ID), Crash]
  const RESTARTED := [Boot, RecoverNext(ID), RecoverDone] + [RequeueDone]
  const RETRIED := [Claim(ID), Look(ID), Settle(ID)]
  const OVERTAKEN := [Outside("other", Some(BASE)), Fetch, Discard]

  lemma {:induction false} ReachedIsRun(limits: Limits, files: map<string, File>, steps: seq<Step>)
    ensures Reached(limits, files, steps) == RunFrom(limits, StartWorld(files), steps)
  {
    hide Next, WorldOk;
    if steps != [] {
      var n := |steps| - 1;
      ReachedIsRun(limits, files, steps[..n]);
      RunOn(limits, StartWorld(files), steps[..n], [steps[n]]);
      RunOne(limits, RunFrom(limits, StartWorld(files), steps[..n]), steps[n], []);
      assert steps == steps[..n] + [steps[n]];
    }
  }

  lemma RunThree(limits: Limits, w: World, a: Step, b: Step, c: Step)
    ensures RunFrom(limits, w, [a, b, c]) == Next(limits, Next(limits, Next(limits, w, a), b), c)
  {
    hide Next;
    RunOne(limits, w, a, [b, c]);
    RunOne(limits, Next(limits, w, a), b, [c]);
    RunOne(limits, Next(limits, Next(limits, w, a), b), c, []);
    assert [a, b, c] == [a] + [b, c] && [b, c] == [b] + [c];
  }

  // ---- a request is proposed --------------------------------------------------------------

  const EMPTY := World(map[], map[], map[], Serving, StartGit(FILES))
  const QUEUED := EMPTY.(items := At(Queued, None, None), tasks := map[ID := Spawned])
  const RUNNING := EMPTY.(items := At(Running, None, None), tasks := map[ID := Proposing])
  const PROPOSED := EMPTY.(items := At(Proposed, Some(PROPOSAL), None))

  lemma ServesNothing(limits: Limits)
    ensures RunFrom(limits, StartWorld(FILES), [Boot, RecoverDone, RequeueDone]) == EMPTY
  {
    hide Submitted, Claimed, Moved, Finished, StartGit, RunFrom;
    var w := StartWorld(FILES);
    assert Next(limits, w, Boot) == w.(phase := Recovering(map[]));
    assert Next(limits, w.(phase := Recovering(map[])), RecoverDone) == w.(phase := Requeueing(map[]));
    assert Next(limits, w.(phase := Requeueing(map[])), RequeueDone) == EMPTY;
    hide Next;
    RunThree(limits, w, Boot, RecoverDone, RequeueDone);
  }

  lemma IsSubmitted(limits: Limits)
    requires limits.maxActive >= 1 && limits.maxFeedbackChars >= 3
    ensures Next(limits, EMPTY, SUBMIT) == QUEUED
  {
    hide StartGit;
    assert Strip("fix") == "fix";
    assert ActiveIds(map[]) == {};
  }

  lemma IsProposed(limits: Limits)
    requires limits.maxActive >= 1 && limits.maxFeedbackChars >= 3
    ensures RunFrom(limits, EMPTY, [SUBMIT, StartRun(ID), FinishRun(ID, Some(PROPOSAL))]) == PROPOSED
  {
    hide StartGit, Claimed, Moved, RunFrom;
    IsSubmitted(limits);
    assert Next(limits, QUEUED, StartRun(ID)) == RUNNING;
    assert Next(limits, RUNNING, FinishRun(ID, Some(PROPOSAL))) == PROPOSED;
    RunThree(limits, EMPTY, SUBMIT, StartRun(ID), FinishRun(ID, Some(PROPOSAL)));
  }

  // ---- its apply stops between commit and push --------------------------------------------

  const CLAIMED := At(Applying, Some(PROPOSAL), None)
  const TORN := map[FACT := Retired(BASE, Some(NEWER))]
  const WRITTEN := World(CLAIMED, map[], map[ID := Committing(NEWER, "new")], Serving,
                         Git(Clone(START, [], TORN, START), START, [], {}, {}, {}))
  const LEFT := Git(Clone(START, [CHANGE], map[], START), START, [], {}, {ID}, {})
  const DOWN := World(CLAIMED, map[], map[], Down, LEFT)

  lemma IsWritten(limits: Limits)
    ensures RunFrom(limits, PROPOSED, [Claim(ID), Look(ID), BeginAdd(ID, false, false, NEWER, "new")]) == WRITTEN
  {
    RunThree(limits, PROPOSED, Claim(ID), Look(ID), BeginAdd(ID, false, false, NEWER, "new"));
    ClaimIs(limits, PROPOSED, ID);
    var claimed := EMPTY.(items := CLAIMED, appliers := map[ID := Looking]);
    LookIs(limits, claimed, ID);
    var adding := EMPTY.(items := CLAIMED, appliers := map[ID := Adding]);
    BegunIs(limits, adding, ID, Chance(false, false, false, NEWER, "new", true, (n: nat) => Try(false, false, false, false)));
    hide Next, RunFrom;
  }

  lemma IsStopped(limits: Limits)
    ensures RunFrom(limits, WRITTEN, [Commit(ID), Crash]) == DOWN
  {
    var pushing := World(CLAIMED, map[], map[ID := Pushing(NEWER)], Serving, LEFT.(stranded := {}));
    CommittingSteps(limits, WRITTEN, ID);
    assert WithCommit(WRITTEN.git, CHANGE) == LEFT.(stranded := {});
    assert Next(limits, WRITTEN, Commit(ID)) == pushing;
    assert Named([CHANGE]) == [ID] by {
      assert [CHANGE][..0] == [];
    }
    assert Strand(pushing, {ID}) == LEFT;
    assert Next(limits, pushing, Crash) == DOWN;
    hide Next;
    RunOne(limits, WRITTEN, Commit(ID), [Crash]);
    RunOne(limits, pushing, Crash, []);
    assert [Commit(ID), Crash] == [Commit(ID)] + [Crash];
  }

  // ---- the next apply takes the commit for the proof --------------------------------------

  const BACK := World(At(Proposed, Some(PROPOSAL), None), map[], map[], Serving, LEFT)
  const APPLIED := BACK.(items := At(Applied, Some(PROPOSAL), Some(NEWER)))

  lemma IsBack(limits: Limits)
    ensures RunFrom(limits, DOWN, [Boot, RecoverNext(ID), RecoverDone]) == BACK.(phase := Requeueing(map[]))
  {
    hide RunFrom, Next;
    Boots(limits);
    Recovers(limits);
    RecoveryEnds(limits);
    RunThree(limits, DOWN, Boot, RecoverNext(ID), RecoverDone);
  }

  const RECOVERING := DOWN.(phase := Recovering(CLAIMED))
  const RECOVERED := BACK.(phase := Recovering(map[]))

  lemma Boots(limits: Limits)
    ensures Next(limits, DOWN, Boot) == RECOVERING
  {
    hide Submitted, Claimed, Moved, Finished;
    assert WithState(CLAIMED, Applying) == CLAIMED;
  }

  lemma Recovers(limits: Limits)
    ensures Next(limits, RECOVERING, RecoverNext(ID)) == RECOVERED
  {
    hide Submitted, Claimed, Moved, Finished;
  }

  lemma RecoveryEnds(limits: Limits)
    ensures Next(limits, RECOVERED, RecoverDone) == BACK.(phase := Requeueing(map[]))
  {
    hide Submitted, Claimed, Moved, Finished;
  }

  lemma LooksApplied(w: World)
    requires w.git.clone == LEFT.clone && w.items == CLAIMED
    ensures LookPc(w, ID) == Settling(Applied, Some(NEWER))
  {
    ReplayedMore(START, [], CHANGE);
    assert [] + [CHANGE] == [CHANGE];
    hide Replayed;
  }

  lemma IsApplied(limits: Limits)
    ensures RunFrom(limits, BACK, RETRIED) == APPLIED
  {
    RunThree(limits, BACK, Claim(ID), Look(ID), Settle(ID));
    ClaimIs(limits, BACK, ID);
    var claimed := BACK.(items := CLAIMED, appliers := map[ID := Looking]);
    LookIs(limits, claimed, ID);
    LooksApplied(claimed);
    var looked := claimed.(appliers := map[ID := Settling(Applied, Some(NEWER))]);
    SettleIs(limits, looked, ID);
    hide Next, RunFrom, LookPc;
  }

  // ---- and the commit is dropped ----------------------------------------------------------

  const DROPPED := APPLIED.(git := Git(Clone(MOVED, [], map[], MOVED), MOVED, [], {}, {ID}, {}))

  lemma IsDropped(limits: Limits)
    ensures RunFrom(limits, APPLIED, OVERTAKEN) == DROPPED
  {
    hide RunFrom, Submitted, Claimed, Moved, Finished;
    var overtaken := APPLIED.(git := LEFT.(remote := MOVED));
    assert (set id <- APPLIED.items | id in LEFT.commits && APPLIED.items[id].fact == "other" && Some(BASE) == Some(APPLIED.items[id].base)) == {};
    assert Next(limits, APPLIED, Outside("other", Some(BASE))) == overtaken;
    var fetched := APPLIED.(git := LEFT.(remote := MOVED, clone := LEFT.clone.(origin := MOVED)));
    assert Next(limits, overtaken, Fetch) == fetched;
    assert Next(limits, fetched, Discard) == DROPPED;
    RunThree(limits, APPLIED, Outside("other", Some(BASE)), Fetch, Discard);
  }

  lemma IsServing(limits: Limits)
    ensures RunFrom(limits, BACK.(phase := Requeueing(map[])), [RequeueDone]) == BACK
  {
    RunOne(limits, BACK.(phase := Requeueing(map[])), RequeueDone, []);
  }

  lemma IsProposedFrom(limits: Limits)
    requires limits.maxActive >= 1 && limits.maxFeedbackChars >= 3
    ensures RunFrom(limits, StartWorld(FILES), SUBMITTING) == PROPOSED
  {
    hide RunFrom, Next;
    RunOn(limits, StartWorld(FILES), [Boot, RecoverDone, RequeueDone], [SUBMIT, StartRun(ID), FinishRun(ID, Some(PROPOSAL))]);
    ServesNothing(limits);
    IsProposed(limits);
  }

  const RUN := SUBMITTING + STOPPED + RESTARTED + RETRIED + OVERTAKEN

  /** A request can be applied for good although no commit of it ever reached the remote, where its fact is active
      as before. */
  lemma AppliedWithoutCommit(limits: Limits)
    requires limits.maxActive >= 1 && limits.maxFeedbackChars >= 3
    ensures var w := Reached(limits, FILES, RUN);
            && InState(w.items, ID, Applied) && ID in w.git.stranded
            && CommitsOf(w.git, ID) == 0 && w.git.clone.unpushed == []
            && FileIn(w.git.remote, FACT) == Some(BASE) && FileIn(w.git.clone.Head(), FACT) == Some(BASE)
  {
    hide RunFrom, Next, Reached;
    ReachedIsRun(limits, FILES, RUN);
    var w := StartWorld(FILES);
    RunOn(limits, w, SUBMITTING + STOPPED + RESTARTED + RETRIED, OVERTAKEN);
    RunOn(limits, w, SUBMITTING + STOPPED + RESTARTED, RETRIED);
    RunOn(limits, w, SUBMITTING + STOPPED, RESTARTED);
    RunOn(limits, w, SUBMITTING, STOPPED);
    IsProposedFrom(limits);
    RunOn(limits, PROPOSED, [Claim(ID), Look(ID), BeginAdd(ID, false, false, NEWER, "new")], [Commit(ID), Crash]);
    IsWritten(limits);
    IsStopped(limits);
    RunOn(limits, DOWN, [Boot, RecoverNext(ID), RecoverDone], [RequeueDone]);
    IsBack(limits);
    IsServing(limits);
    IsApplied(limits);
    IsDropped(limits);
  }

  // ---- a push that nobody hears of --------------------------------------------------------

  const AFTER := Committed(START, CHANGE)
  const UNHEARD := [Push(Some(ID), false), GiveUp(ID), Settle(ID)]
  const AGAIN := [BeginAdd(ID, false, false, "later", "new"), Settle(ID)]
  const PUSHED := Git(Clone(START, [], map[], START), AFTER, [ID], {}, {}, {ID})
  const OPEN := World(At(Proposed, Some(PROPOSAL), None), map[], map[], Serving, PUSHED)
  const STALE := OPEN.(items := At(Stale, Some(PROPOSAL), None), git := PUSHED.(clone := Clone(AFTER, [], map[], AFTER)))

  lemma IsCommitted(limits: Limits)
    ensures Next(limits, WRITTEN, Commit(ID)) == World(CLAIMED, map[], map[ID := Pushing(NEWER)], Serving, LEFT.(stranded := {}))
  {
    CommittingSteps(limits, WRITTEN, ID);
    assert WithCommit(WRITTEN.git, CHANGE) == LEFT.(stranded := {});
    hide Next;
  }

  lemma LandsUnheard()
    ensures Landed(LEFT.(stranded := {}), false, Some(ID)) == PUSHED.(clone := Clone(AFTER, [], map[], START))
  {
    ReplayedMore(START, [], CHANGE);
    assert [] + [CHANGE] == [CHANGE];
    hide Committed, Replayed;
  }

  lemma IsOpen(limits: Limits)
    ensures RunFrom(limits, World(CLAIMED, map[], map[ID := Pushing(NEWER)], Serving, LEFT.(stranded := {})), UNHEARD) == OPEN
  {
    hide Committed, RunFrom, Landed;
    var pushing := World(CLAIMED, map[], map[ID := Pushing(NEWER)], Serving, LEFT.(stranded := {}));
    var landed := pushing.(git := PUSHED.(clone := Clone(AFTER, [], map[], START)));
    var dropped := OPEN.(items := CLAIMED, appliers := map[ID := Settling(Proposed, None)]);
    RunThree(limits, pushing, Push(Some(ID), false), GiveUp(ID), Settle(ID));
    LandsUnheard();
    DrivenSteps(limits, pushing, ID, Try(true, false, false, false));
    DrivenSteps(limits, landed, ID, Try(true, false, false, false));
    SettleIs(limits, dropped, ID);
    hide Next;
    assert Next(limits, landed, GiveUp(ID)) == dropped;
  }

  lemma IsAdding(limits: Limits)
    ensures RunFrom(limits, OPEN, [Claim(ID), Look(ID)]) == OPEN.(items := CLAIMED, appliers := map[ID := Adding])
  {
    hide Committed, RunFrom;
    RunOne(limits, OPEN, Claim(ID), [Look(ID)]);
    ClaimIs(limits, OPEN, ID);
    var claimed := OPEN.(items := CLAIMED, appliers := map[ID := Looking]);
    LookIs(limits, claimed, ID);
    assert LookPc(claimed, ID) == Adding;
    assert Next(limits, OPEN, Claim(ID)) == claimed;
    assert Next(limits, claimed, Look(ID)) == claimed.(appliers := map[ID := Adding]);
    hide Next;
    RunOne(limits, claimed, Look(ID), []);
    assert [Claim(ID), Look(ID)] == [Claim(ID)] + [Look(ID)];
  }

  lemma IsStale(limits: Limits)
    ensures RunFrom(limits, OPEN.(items := CLAIMED, appliers := map[ID := Adding]), AGAIN) == STALE
  {
    hide RunFrom;
    var adding := OPEN.(items := CLAIMED, appliers := map[ID := Adding]);
    BegunIs(limits, adding, ID, Chance(false, false, false, "later", "new", true, (n: nat) => Try(false, false, false, false)));
    var begun := STALE.(items := CLAIMED, appliers := map[ID := Settling(Stale, None)]);
    assert FileIn(AFTER, FACT) == Some(Retired(BASE, Some(NEWER)));
    hide Next, Committed;
    SettleIs(limits, begun, ID);
    RunOne(limits, adding, BeginAdd(ID, false, false, "later", "new"), [Settle(ID)]);
    RunOne(limits, begun, Settle(ID), []);
    assert AGAIN == [BeginAdd(ID, false, false, "later", "new")] + [Settle(ID)];
  }

  const BEGUN := [Claim(ID), Look(ID), BeginAdd(ID, false, false, NEWER, "new")]
  const STALE_RUN := SUBMITTING + BEGUN + [Commit(ID)] + UNHEARD + [Claim(ID), Look(ID)] + AGAIN

  /** A request can be stale for good, with nobody but the server at work, although it replaced its fact. */
  lemma StaleWithCommit(limits: Limits)
    requires limits.maxActive >= 1 && limits.maxFeedbackChars >= 3
    ensures var w := Reached(limits, FILES, STALE_RUN);
            && InState(w.items, ID, Stale) && ID in w.git.unheard
            && CommitsOf(w.git, ID) == 1
            && FileIn(w.git.remote, FACT) == Some(Retired(BASE, Some(NEWER)))
            && FileIn(w.git.remote, NEWER) == Some(File("new", true, None))
  {
    assert FileIn(AFTER, FACT) == Some(Retired(BASE, Some(NEWER))) && FileIn(AFTER, NEWER) == Some(File("new", true, None));
    hide RunFrom, Next, Reached, Committed;
    ReachedIsRun(limits, FILES, STALE_RUN);
    IsProposedFrom(limits);
    IsWritten(limits);
    IsCommitted(limits);
    IsOpen(limits);
    IsAdding(limits);
    IsStale(limits);
    var w := StartWorld(FILES);
    RunOn(limits, w, SUBMITTING + BEGUN + [Commit(ID)] + UNHEARD + [Claim(ID), Look(ID)], AGAIN);
    RunOn(limits, w, SUBMITTING + BEGUN + [Commit(ID)] + UNHEARD, [Claim(ID), Look(ID)]);
    RunOn(limits, w, SUBMITTING + BEGUN + [Commit(ID)], UNHEARD);
    RunOn(limits, w, SUBMITTING + BEGUN, [Commit(ID)]);
    RunOn(limits, w, SUBMITTING, BEGUN);
    RunOne(limits, WRITTEN, Commit(ID), []);
  }
}
