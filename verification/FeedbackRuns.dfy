/** What holds of feedback requests over whole runs. */
module FeedbackRuns {
  import opened Domain
  import opened Feedback
  import opened GitClone
  import opened FeedbackGuard
  import opened FeedbackWorld
  import opened FeedbackProofs

  // ---- whole runs -------------------------------------------------------------------------

  ghost function Reached(limits: Limits, files: map<string, File>, steps: seq<Step>): (w: World)
    ensures WorldOk(limits, w)
  {
    if steps == [] then
      StartIsOk(limits, files);
      StartWorld(files)
    else
      var m := Reached(limits, files, steps[..|steps| - 1]);
      StepKeepsWorld(limits, m, steps[|steps| - 1]);
      Next(limits, m, steps[|steps| - 1])
  }

  lemma StartIsOk(limits: Limits, files: map<string, File>)
    ensures WorldOk(limits, StartWorld(files))
  {
    assert ActiveIds(map[]) == {};
    assert StartGit(files).clone.Head() == StartGit(files).remote;
  }

  /** How many commits of the request reached the remote. */
  function CommitsOf(g: Git, id: string): nat {
    multiset(g.commits)[id]
  }

  lemma CountedOnce(items: Items, g: Git, id: string)
    requires OnceOk(items, g)
    ensures CommitsOf(g, id) <= 1 || id in g.restored
    ensures CommitsOf(g, id) >= 1 <==> id in g.commits
  {
    Counted(g.commits, id);
  }

  lemma {:induction false} Counted(commits: seq<string>, id: string)
    ensures multiset(commits)[id] >= 1 <==> id in commits
    ensures multiset(commits)[id] > 1 ==> exists i, j :: 0 <= i < j < |commits| && commits[i] == commits[j] == id
  {
    if commits != [] {
      var n := |commits| - 1;
      Counted(commits[..n], id);
      assert commits == commits[..n] + [commits[n]];
      if id in commits[..n] && commits[n] == id {
        var i :| 0 <= i < n && commits[i] == id;
        assert commits[i] == commits[n] == id;
      }
    }
  }

  /** Whatever is cancelled, crashes, is left behind, lands late or is reported wrongly, a request replaces its fact
      at most once, unless somebody else put the fact back to the very file that was replaced. An applied request did
      if and only if no apply of it ended between its commit and the push without a later push taking the commit
      along, or the fact was put back after an earlier commit. */
  lemma AppliedAtMostOnce(limits: Limits, files: map<string, File>, steps: seq<Step>, id: string)
    ensures var w := Reached(limits, files, steps);
            && (CommitsOf(w.git, id) <= 1 || id in w.git.restored)
            && (InState(w.items, id, Applied) ==> (CommitsOf(w.git, id) >= 1 <==> id !in w.git.stranded || id in w.git.restored))
  {
    var w := Reached(limits, files, steps);
    CountedOnce(w.items, w.git, id);
    hide Reached, ProcessesOk, PhaseOk, RequestsOk, CloneOk, ChangesOk, Guards, LockOk, UnheardOk;
  }

  /** An apply that ends applied because it finds its marker in the clone is right if and only if no commit of its
      request is unpushed there, or the fact was put back after an earlier one had landed. */
  lemma LookIsRightExactly(limits: Limits, files: map<string, File>, steps: seq<Step>, id: string)
    requires var w := Reached(limits, files, steps);
             AtPc(w, id, Looking) && LookPc(w, id).Settling? && LookPc(w, id).to == Applied
    ensures var g := Reached(limits, files, steps).git;
            CommitsOf(g, id) >= 1 <==> id !in Named(g.clone.unpushed) || id in g.restored
  {
    var w := Reached(limits, files, steps);
    hide Reached, ProcessesOk, PhaseOk, RequestsOk, Guards, LockOk, StrandedOk, AppliedOk, UnheardOk;
    CountedOnce(w.items, w.git, id);
    ReplayedMarkers(w.git.clone.at, w.git.clone.unpushed);
    if id in Named(w.git.clone.unpushed) {
      WaitingIsRetired(w.items, w.git, id);
    }
    hide Named, Replayed, AllFit, ChangesOk;
  }

  /** A request that is stale, or proposed again, has not replaced its fact if and only if no push of its commit went
      unheard: landed in answer to a call that failed, taken along by somebody else, or heard of by an apply that ended
      before it could store that. */
  lemma StaleIsRightExactly(limits: Limits, files: map<string, File>, steps: seq<Step>, id: string)
    ensures var w := Reached(limits, files, steps);
            InState(w.items, id, Stale) || InState(w.items, id, Proposed) ==> (CommitsOf(w.git, id) == 0 <==> id !in w.git.unheard)
  {
    var w := Reached(limits, files, steps);
    CountedOnce(w.items, w.git, id);
    hide Reached, PhaseOk, RequestsOk, CloneOk, ChangesOk, Guards, LockOk, StrandedOk, AppliedOk;
  }

  /** The remote names exactly the requests that landed. */
  lemma NamedByRemote(w: World, id: string)
    requires CloneOk(w.git) && OnceOk(w.items, w.git) && UnheardOk(w)
    ensures CommitsOf(w.git, id) >= 1 <==> id in w.git.remote.markers
  {
    hide AllFit, InState, EndsApplied;
    CountedOnce(w.items, w.git, id);
  }

  /** A begin that ends the apply leaves the clone at the remote it fetched. */
  lemma BeginFetches(w: World, id: string, refused: bool, spotted: bool, newer: string, content: string)
    requires AtPc(w, id, Adding) && id in w.items
    ensures var u := BeginAddStep(w, id, refused, spotted, newer, content);
            && u.git.commits == w.git.commits
            && (id in u.appliers && u.appliers[id].Settling? ==> u.git.clone.origin == w.git.remote)
  {
    hide MayWrite, Fresh, TornUntouched, RefusedAs;
  }

  /** When an add is refused under the lock, whether as stale or to be tried again, the request has replaced its fact
      if and only if the remote just fetched names it. */
  lemma RefusalIsRightExactly(limits: Limits, files: map<string, File>, steps: seq<Step>, id: string, refused: bool, spotted: bool,
                              newer: string, content: string)
    requires AtPc(Reached(limits, files, steps), id, Adding)
    ensures var u := BeginAddStep(Reached(limits, files, steps), id, refused, spotted, newer, content);
            id in u.appliers && u.appliers[id].Settling? ==> (CommitsOf(u.git, id) >= 1 <==> id in u.git.clone.origin.markers)
  {
    var w := Reached(limits, files, steps);
    assert id in w.items;
    hide BeginAddStep, Reached, PhaseOk, RequestsOk, ChangesOk, Guards, LockOk, StrandedOk, AppliedOk;
    BeginFetches(w, id, refused, spotted, newer, content);
    NamedByRemote(w, id);
  }

  /** A fact has at most one unfinished request, unfinished requests stay within the limit, and a proposed one has
      a proposal. */
  lemma OneRequestPerFact(limits: Limits, files: map<string, File>, steps: seq<Step>, i: string, j: string)
    requires var items := Reached(limits, files, steps).items; i in items && j in items
    ensures var items := Reached(limits, files, steps).items;
            && (IsActive(items[i].state) && IsActive(items[j].state) && items[i].fact == items[j].fact ==> i == j)
            && |ActiveIds(items)| <= limits.maxActive
            && (items[i].state == Proposed ==> items[i].proposal.Some?)
  {
    hide Reached, ProcessesOk, PhaseOk, GitOk, StrandedOk, AppliedOk, UnheardOk;
  }

  /** Every change of state that is ever stored is an allowed transition, though runs, start-up and claims never ask. */
  lemma EveryChangeIsAllowed(limits: Limits, files: map<string, File>, steps: seq<Step>, s: Step)
    ensures Follows(Reached(limits, files, steps).items, Reached(limits, files, steps + [s]).items)
  {
    assert (steps + [s])[..|steps|] == steps;
    assert HasProposals(Reached(limits, files, steps).items);
    hide ProcessesOk, PhaseOk, RequestsOk, HasProposals, GitOk, StrandedOk, AppliedOk, UnheardOk, Follows, Next;
    StepFollows(limits, Reached(limits, files, steps), s);
  }

  /** In every reachable world a run that fails leaves its request failed, one that succeeds leaves it proposed with the
      proposal it made, and neither touches another request. */
  lemma RunEndsAsTold(limits: Limits, files: map<string, File>, steps: seq<Step>, id: string, outcome: Option<Proposal>)
    requires var w := Reached(limits, files, steps); id in w.tasks && w.tasks[id] == Proposing
    ensures var w, u := Reached(limits, files, steps), Reached(limits, files, steps + [FinishRun(id, outcome)]);
            && id in w.items && u.items.Keys == w.items.Keys && id !in u.tasks
            && (forall other <- w.items :: other != id ==> u.items[other] == w.items[other])
            && (outcome.None? ==> u.items[id] == w.items[id].(state := Failed))
            && (outcome.Some? ==> u.items[id] == w.items[id].(state := Proposed, proposal := outcome))
  {
    ReachedOne(limits, files, steps, FinishRun(id, outcome));
    hide Reached, PhaseOk, RequestsOk, GitOk, StrandedOk, AppliedOk, UnheardOk, ProcessesOk, Next;
    FinishIs(limits, Reached(limits, files, steps), id, outcome);
  }

  lemma ReachedOne(limits: Limits, files: map<string, File>, steps: seq<Step>, s: Step)
    ensures Reached(limits, files, steps + [s]) == Next(limits, Reached(limits, files, steps), s)
  {
    hide WorldOk, Next;
    assert (steps + [s])[..|steps|] == steps;
  }

  lemma FinishIs(limits: Limits, w: World, id: string, outcome: Option<Proposal>)
    requires ProcessesOk(w) && id in w.tasks && w.tasks[id] == Proposing
    ensures var u := Next(limits, w, FinishRun(id, outcome));
            && id in w.items && u.items.Keys == w.items.Keys && id !in u.tasks
            && (forall other <- w.items :: other != id ==> u.items[other] == w.items[other])
            && (outcome.None? ==> u.items[id] == w.items[id].(state := Failed))
            && (outcome.Some? ==> u.items[id] == w.items[id].(state := Proposed, proposal := outcome))
  {
  }

  predicate IsFinal(s: State) {
    s in {Applied, Rejected, Failed, Stale}
  }

  /** Applied, rejected, failed and stale are for good. */
  lemma {:induction false} FinalStaysFinal(limits: Limits, files: map<string, File>, steps: seq<Step>, more: seq<Step>, id: string)
    requires var items := Reached(limits, files, steps).items; id in items && IsFinal(items[id].state)
    ensures var before, after := Reached(limits, files, steps).items, Reached(limits, files, steps + more).items;
            id in after && after[id].state == before[id].state
    decreases |more|
  {
    hide WorldOk, Next;
    if more == [] {
      assert steps + more == steps;
    } else {
      var n := |more| - 1;
      FinalStaysFinal(limits, files, steps, more[..n], id);
      EveryChangeIsAllowed(limits, files, steps + more[..n], more[n]);
      assert steps + more == steps + more[..n] + [more[n]];
    }
  }
}
