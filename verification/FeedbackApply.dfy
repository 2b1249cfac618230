/** Applying a proposal as a program: an apply that nothing disturbs is a sequence of steps of the world, one for each
    call it makes, whatever the clone holds when it starts. */
module FeedbackApply {
  import opened Domain
  import opened Feedback
  import opened GitClone
  import opened FeedbackGuard
  import opened FeedbackWorld

  /** What the outside decides during an apply: refusals before and under the lock, a secret spotted in the written
      file, the id and text of the new fact, whether git commit works, and the rounds of the push loop. */
  datatype Chance = Chance(refusedEarly: bool, refused: bool, spotted: bool, newer: string, content: string, commits: bool, tries: nat -> Try)

  ghost function RunFrom(limits: Limits, w: World, steps: seq<Step>): World
    decreases |steps|
  {
    if steps == [] then w else RunFrom(limits, Next(limits, w, steps[0]), steps[1..])
  }

  lemma {:induction false} RunOn(limits: Limits, w: World, steps: seq<Step>, more: seq<Step>)
    ensures RunFrom(limits, w, steps + more) == RunFrom(limits, RunFrom(limits, w, steps), more)
    decreases |steps|
  {
    hide Next;
    if steps == [] {
      assert steps + more == more;
    } else {
      assert (steps + more)[1..] == steps[1..] + more;
      RunOn(limits, Next(limits, w, steps[0]), steps[1..], more);
    }
  }

  lemma RunOne(limits: Limits, w: World, s: Step, more: seq<Step>)
    ensures RunFrom(limits, w, [s] + more) == RunFrom(limits, Next(limits, w, s), more)
    ensures RunFrom(limits, w, [s]) == Next(limits, w, s)
  {
    hide Next;
    assert ([s] + more)[1..] == more;
  }

  // ---- the steps of an apply --------------------------------------------------------------

  /** The rounds of the push loop; once a round has settled the apply, the rest are no steps. */
  function PushSteps(id: string, tries: nat -> Try, n: nat): seq<Step>
    decreases PUSHES - n
  {
    if n >= PUSHES then [GiveUp(id)]
    else
      (if tries(n).lands then [Push(Some(id), tries(n).heard)] else [])
      + ([if tries(n).fetches then Rebase(Some(id), tries(n).clean) else GiveUp(id)] + PushSteps(id, tries, n + 1))
  }

  function AddSteps(id: string, chance: Chance): seq<Step> {
    [BeginAdd(id, chance.refused, chance.spotted, chance.newer, chance.content)]
    + CommitSteps(id, chance)
  }

  function CommitSteps(id: string, chance: Chance): seq<Step> {
    if chance.commits then [Commit(id)] + PushSteps(id, chance.tries, 0) else [GiveUp(id)]
  }

  function AddingSteps(id: string, chance: Chance): seq<Step> {
    if chance.refusedEarly then [RefuseAdd(id)] else AddSteps(id, chance)
  }

  function ApplySteps(id: string, chance: Chance): seq<Step> {
    [Claim(id)] + ([Look(id)] + AddingSteps(id, chance) + [Settle(id)])
  }

  // ---- the push loop is its steps ---------------------------------------------------------

  predicate Idle(w: World, id: string) {
    id !in w.appliers || !HoldsLock(w.appliers[id])
  }

  lemma IdleNext(limits: Limits, w: World, id: string, t: Try)
    requires Idle(w, id)
    ensures Next(limits, w, Push(Some(id), t.heard)) == w
    ensures Next(limits, w, Rebase(Some(id), t.clean)) == w && Next(limits, w, GiveUp(id)) == w
  {
    hide Landed, Rebased, Rebases, Reset, Strip, ActiveIds;
  }

  lemma {:induction false} IdlePushes(limits: Limits, w: World, id: string, tries: nat -> Try, n: nat)
    requires Idle(w, id)
    ensures RunFrom(limits, w, PushSteps(id, tries, n)) == w
    decreases PUSHES - n
  {
    hide Next, Idle;
    IdleNext(limits, w, id, if n < PUSHES then tries(n) else Try(false, false, false, false));
    if n < PUSHES {
      var t := tries(n);
      var next := if t.fetches then Rebase(Some(id), t.clean) else GiveUp(id);
      if t.lands {
        RunOne(limits, w, Push(Some(id), t.heard), [next] + PushSteps(id, tries, n + 1));
      } else {
        assert [] + ([next] + PushSteps(id, tries, n + 1)) == [next] + PushSteps(id, tries, n + 1);
      }
      RunOne(limits, w, next, PushSteps(id, tries, n + 1));
      IdlePushes(limits, w, id, tries, n + 1);
    } else {
      RunOne(limits, w, GiveUp(id), []);
    }
  }

  function SettledAs(ok: bool, newer: string): ApplyPc {
    if ok then Settling(Applied, Some(newer)) else Settling(Proposed, None)
  }

  ghost function AfterPush(limits: Limits, w: World, id: string, t: Try): World {
    if t.lands then Next(limits, w, Push(Some(id), t.heard)) else w
  }

  lemma PushRound(limits: Limits, w: World, id: string, tries: nat -> Try, n: nat)
    requires n < PUSHES
    ensures var t := tries(n);
            var next := if t.fetches then Rebase(Some(id), t.clean) else GiveUp(id);
            RunFrom(limits, w, PushSteps(id, tries, n)) ==
            RunFrom(limits, AfterPush(limits, w, id, t), [next] + PushSteps(id, tries, n + 1))
  {
    hide Next;
    var t := tries(n);
    var rest := [if t.fetches then Rebase(Some(id), t.clean) else GiveUp(id)] + PushSteps(id, tries, n + 1);
    RunOne(limits, w, Push(Some(id), t.heard), rest);
    assert [] + rest == rest;
    hide RunFrom;
  }

  lemma {:induction false} PushesRun(limits: Limits, w: World, id: string, newer: string, tries: nat -> Try, n: nat)
    requires id in w.appliers && w.appliers[id] == Pushing(newer)
    ensures var (g, ok) := Pushed(w.git, id, tries, n);
            RunFrom(limits, w, PushSteps(id, tries, n)) == w.(git := g, appliers := w.appliers[id := SettledAs(ok, newer)])
    decreases PUSHES - n
  {
    hide Landed, Rebased, Rebases, Reset, Strip, ActiveIds, Next, RunFrom;
    if n >= PUSHES {
      RunOne(limits, w, GiveUp(id), []);
      DrivenSteps(limits, w, id, Try(false, false, false, false));
    } else {
      var t := tries(n);
      var next := if t.fetches then Rebase(Some(id), t.clean) else GiveUp(id);
      var rest := PushSteps(id, tries, n + 1);
      PushRound(limits, w, id, tries, n);
      DrivenSteps(limits, w, id, t);
      var m := AfterPush(limits, w, id, t);
      if m.appliers[id].Pushing? {
        DrivenSteps(limits, m, id, t);
        RunOne(limits, m, next, rest);
        var u := Next(limits, m, next);
        if u.appliers[id].Pushing? {
          PushesRun(limits, u, id, newer, tries, n + 1);
        } else {
          IdlePushes(limits, u, id, tries, n + 1);
        }
      } else {
        IdleNext(limits, m, id, t);
        RunOne(limits, m, next, rest);
        IdlePushes(limits, m, id, tries, n + 1);
      }
    }
  }

  /** What the steps of one round do to an apply that is pushing. */
  lemma DrivenSteps(limits: Limits, w: World, id: string, t: Try)
    requires id in w.appliers && w.appliers[id].Pushing?
    ensures var newer := w.appliers[id].newer;
            && Next(limits, w, Push(Some(id), t.heard)) ==
               (if w.git.clone.at != w.git.remote then w
                else w.(git := Landed(w.git, t.heard, Some(id)), appliers := if t.heard then w.appliers[id := SettledAs(true, newer)] else w.appliers))
            && Next(limits, w, Rebase(Some(id), t.clean)) ==
               w.(git := Rebased(w.git, t.clean),
                  appliers := if Rebases(w.git, t.clean) then w.appliers else w.appliers[id := SettledAs(false, newer)])
            && Next(limits, w, GiveUp(id)) ==
               w.(git := w.git.(clone := Reset(w.git.clone)), appliers := w.appliers[id := SettledAs(false, newer)])
  {
    hide Landed, Rebased, Rebases, Reset, Strip, ActiveIds;
  }

  /** The steps after a begin that ended the apply change nothing. */
  lemma IdleAdd(limits: Limits, w: World, id: string, chance: Chance)
    requires Idle(w, id)
    ensures RunFrom(limits, w, CommitSteps(id, chance)) == w
  {
    IdleNext(limits, w, id, Try(false, false, false, false));
    assert Next(limits, w, Commit(id)) == w;
    hide Next, RunFrom, PushSteps;
    RunOne(limits, w, GiveUp(id), []);
    RunOne(limits, w, Commit(id), PushSteps(id, chance.tries, 0));
    IdlePushes(limits, w, id, chance.tries, 0);
  }

  // ---- single steps -----------------------------------------------------------------------

  lemma ClaimIs(limits: Limits, w: World, id: string)
    requires w.phase == Serving
    ensures Next(limits, w, Claim(id)) ==
            if Claimed(w.items, id).Err? then w
            else w.(items := Claimed(w.items, id).value, appliers := w.appliers[id := Looking])
  {
  }

  lemma LookIs(limits: Limits, w: World, id: string)
    requires AtPc(w, id, Looking)
    ensures Next(limits, w, Look(id)) == w.(appliers := w.appliers[id := LookPc(w, id)])
  {
    hide LookPc;
  }

  lemma RefusedIs(limits: Limits, w: World, id: string)
    requires AtPc(w, id, Adding)
    ensures RunFrom(limits, w, [RefuseAdd(id)]) == w.(appliers := w.appliers[id := Settling(Proposed, None)])
  {
    RunOne(limits, w, RefuseAdd(id), []);
  }

  lemma BegunIs(limits: Limits, w: World, id: string, chance: Chance)
    requires w.appliers == map[id := Adding] && id in w.items && Fresh(w.items, w.git, chance.newer)
    ensures var r, g := w.items[id], w.git.(clone := Fetched(w.git.clone, w.git.remote));
            var seen := g.clone.Seen(r.fact);
            Next(limits, w, BeginAdd(id, chance.refused, chance.spotted, chance.newer, chance.content)) ==
            if !MayWrite(w.git.clone, w.git.remote) then w.(git := g, appliers := map[])
            else if chance.refused || chance.spotted || seen != Some(r.base) then
              w.(git := g.(clone := Reset(g.clone)),
                 appliers := map[id := Settling(RefusedAs(chance.refused, seen, r.base), None)])
            else
              w.(git := g.(clone := g.clone.(torn := g.clone.torn[r.fact := Retired(r.base, Some(chance.newer))])),
                 appliers := map[id := Committing(chance.newer, chance.content)])
  {
    hide Fetched, MayWrite, Fresh, Reset;
    assert !Locked(w.appliers);
    assert map[id := Adding] - {id} == map[];
  }

  lemma CommittingSteps(limits: Limits, w: World, id: string)
    requires id in w.appliers && w.appliers[id].Committing? && id in w.items
    ensures var pc := w.appliers[id];
            && Next(limits, w, Commit(id)) ==
               w.(git := WithCommit(w.git, ChangeFor(w.items, id, pc.newer, pc.content)), appliers := w.appliers[id := Pushing(pc.newer)])
            && Next(limits, w, GiveUp(id)) ==
               w.(git := w.git.(clone := Reset(w.git.clone)), appliers := w.appliers[id := Settling(Proposed, None)])
  {
    hide WithCommit, Reset;
  }

  lemma SettleIs(limits: Limits, w: World, id: string)
    ensures Next(limits, w, Settle(id)) ==
            if id in w.appliers && w.appliers[id].Settling? then
              var r := Moved(w.items, id, w.appliers[id].to, w.appliers[id].replacement);
              w.(items := if r.Ok? then r.value else w.items, appliers := w.appliers - {id})
            else w
  {
  }

  /** A reset forgets what was written. */
  lemma ResetForgets(c: Clone, fact: string, file: File)
    ensures Reset(c.(torn := c.torn[fact := file])) == Reset(c)
  {
  }

  /** An apply that is not about to add skips the steps of adding. */
  lemma SkipsAdding(limits: Limits, w: World, id: string, chance: Chance)
    requires id !in w.appliers || w.appliers[id].Settling?
    ensures RunFrom(limits, w, AddingSteps(id, chance)) == w
  {
    RunOne(limits, w, RefuseAdd(id), []);
    var begin := BeginAdd(id, chance.refused, chance.spotted, chance.newer, chance.content);
    assert Next(limits, w, begin) == w;
    RunOne(limits, w, begin, CommitSteps(id, chance));
    IdleAdd(limits, w, id, chance);
    hide Next, PushSteps;
  }

  lemma AloneRefused(limits: Limits, w: World, id: string, chance: Chance)
    requires w.phase == Serving && id !in w.appliers && Claimed(w.items, id).Err?
    ensures RunFrom(limits, w, ApplySteps(id, chance)) == w
  {
    ClaimIs(limits, w, id);
    assert Next(limits, w, Look(id)) == w;
    SettleIs(limits, w, id);
    hide Next, AddingSteps, RunFrom;
    var adding := AddingSteps(id, chance);
    RunOne(limits, w, Claim(id), [Look(id)] + adding + [Settle(id)]);
    assert [Look(id)] + adding + [Settle(id)] == [Look(id)] + (adding + [Settle(id)]);
    RunOne(limits, w, Look(id), adding + [Settle(id)]);
    SkipsAdding(limits, w, id, chance);
    RunOn(limits, w, adding, [Settle(id)]);
    RunOne(limits, w, Settle(id), []);
  }

  /** A claim changes no fact of a request. */
  lemma StaysFresh(items: Items, after: Items, g: Git, name: string)
    requires Fresh(items, g, name) && forall id <- after :: id in items && after[id].fact == items[id].fact
    ensures Fresh(after, g, name)
  {
  }

  // ---- the service ------------------------------------------------------------------------

  datatype Answer = Unclaimed | Raised | Settled(to: State)

  class GitServices {
    const feedback: FeedbackCoordinator
    const store: GitStore

    constructor (feedback: FeedbackCoordinator, store: GitStore)
      ensures this.feedback == feedback && this.store == store
    {
      this.feedback, this.store := feedback, store;
    }

    ghost function Snapshot(appliers: Appliers): World
      reads feedback, store
    {
      World(feedback.items, map[], appliers, Serving, store.State())
    }

    /** Commits the written files and pushes; a failure leaves nothing behind. */
    method CommitAndPush(request: Request, id: string, chance: Chance) returns (ok: bool)
      requires id in feedback.items && feedback.items[id].fact == request.fact
      modifies store
      ensures !ok ==> store.clone == Reset(store.clone)
      ensures Snapshot(map[id := SettledAs(ok, chance.newer)]) ==
              RunFrom(feedback.limits, old(Snapshot(map[id := Committing(chance.newer, chance.content)])), CommitSteps(id, chance))
    {
      hide Pushed, Fresh, Next, RunFrom;
      ghost var limits := feedback.limits;
      ghost var m := Snapshot(map[id := Committing(chance.newer, chance.content)]);
      CommittingSteps(limits, m, id);
      if !chance.commits {
        RunOne(limits, m, GiveUp(id), []);
        store.ResetHard();
        return false;
      }
      RunOne(limits, m, Commit(id), PushSteps(id, chance.tries, 0));
      store.Commit(Change(Some(id), {request.fact}, Some(chance.newer), chance.content));
      assert Next(limits, m, Commit(id)) == Snapshot(map[id := Pushing(chance.newer)]);
      PushesRun(limits, Snapshot(map[id := Pushing(chance.newer)]), id, chance.newer, chance.tries, 0);
      ok := store.PushLoop(chance.tries, id);
    }

    /** Writes the replacement and supersedes the fact, guarded by the file the request was made for; raised when
        the clone cannot follow the remote. */
    method Add(request: Request, id: string, chance: Chance) returns (raised: bool, to: State, replacement: Option<string>)
      requires id in feedback.items && feedback.items[id].fact == request.fact && feedback.items[id].base == request.base
      requires Fresh(feedback.items, store.State(), chance.newer)
      modifies store
      ensures to in AllowedTransitions(Applying)
      ensures Snapshot(if raised then map[] else map[id := Settling(to, replacement)]) ==
              RunFrom(feedback.limits, old(Snapshot(map[id := Adding])), AddSteps(id, chance))
    {
      hide Reset, Fetched, MayWrite, Fresh, Next, RunFrom, CommitSteps;
      ghost var limits := feedback.limits;
      ghost var w := Snapshot(map[id := Adding]);
      ghost var rest := CommitSteps(id, chance);
      ghost var m := Next(limits, w, BeginAdd(id, chance.refused, chance.spotted, chance.newer, chance.content));
      RunOne(limits, w, BeginAdd(id, chance.refused, chance.spotted, chance.newer, chance.content), rest);
      BegunIs(limits, w, id, chance);
      var ok := store.FetchAndFf();
      if !ok {
        IdleAdd(limits, m, id, chance);
        return true, Stale, None;
      }
      if chance.refused {
        store.ResetHard();
        IdleAdd(limits, m, id, chance);
        return false, Proposed, None;
      }
      var seen := store.clone.Seen(request.fact);
      if seen != Some(request.base) {
        store.ResetHard();
        IdleAdd(limits, m, id, chance);
        return false, if seen.None? then Proposed else Stale, None;
      }
      ghost var fetched := store.clone;
      store.Write(request.fact, Retired(request.base, Some(chance.newer)));
      if chance.spotted {
        ResetForgets(fetched, request.fact, Retired(request.base, Some(chance.newer)));
        store.ResetHard();
        IdleAdd(limits, m, id, chance);
        return false, Proposed, None;
      }
      assert m == Snapshot(map[id := Committing(chance.newer, chance.content)]);
      ok := CommitAndPush(request, id, chance);
      if !ok {
        store.ResetHard();
        return false, Proposed, None;
      }
      return false, Applied, Some(chance.newer);
    }

    /** What follows a claim: the look into the clone and, if the fact is as it was, the add. */
    method Decide(request: Request, id: string, chance: Chance) returns (raised: bool, to: State, replacement: Option<string>)
      requires id in feedback.items && feedback.items[id].fact == request.fact && feedback.items[id].base == request.base
      requires Fresh(feedback.items, store.State(), chance.newer)
      modifies store
      ensures to in AllowedTransitions(Applying)
      ensures Snapshot(if raised then map[] else map[id := Settling(to, replacement)]) ==
              RunFrom(feedback.limits, old(Snapshot(map[id := Looking])), [Look(id)] + AddingSteps(id, chance))
    {
      hide Fresh, Next, RunFrom, AddSteps;
      ghost var limits, claimed := feedback.limits, Snapshot(map[id := Looking]);
      ghost var looked := Next(limits, claimed, Look(id));
      LookIs(limits, claimed, id);
      RunOne(limits, claimed, Look(id), AddingSteps(id, chance));
      var file := store.clone.Seen(request.fact);
      raised, to, replacement := false, Stale, None;
      if file.Some? && id in store.clone.Head().markers && file.value.supersededBy.Some? {
        SkipsAdding(limits, looked, id, chance);
        return false, Applied, file.value.supersededBy;
      }
      if file.None? || !file.value.active || file.value != request.base {
        SkipsAdding(limits, looked, id, chance);
        return;
      }
      assert looked == Snapshot(map[id := Adding]);
      if chance.refusedEarly {
        RefusedIs(limits, looked, id);
        return false, Proposed, None;
      }
      raised, to, replacement := Add(request, id, chance);
    }

    /** Applies a proposal. */
    method ApplyFeedback(id: string, chance: Chance) returns (answer: Answer)
      requires Fresh(feedback.items, store.State(), chance.newer)
      modifies feedback, store
      ensures Snapshot(map[]) == RunFrom(feedback.limits, old(Snapshot(map[])), ApplySteps(id, chance))
      ensures answer.Unclaimed? <==> Claimed(old(feedback.items), id).Err?
      ensures !answer.Unclaimed? ==> InState(feedback.items, id, if answer.Raised? then Applying else answer.to)
    {
      hide Fresh, Next, RunFrom, AddSteps, AddingSteps;
      ghost var limits, w, adding := feedback.limits, Snapshot(map[]), AddingSteps(id, chance);
      RunOne(limits, w, Claim(id), [Look(id)] + adding + [Settle(id)]);
      ClaimIs(limits, w, id);
      var r := feedback.ClaimApply(id);
      if r.Err? {
        AloneRefused(limits, w, id, chance);
        return Unclaimed;
      }
      StaysFresh(w.items, feedback.items, store.State(), chance.newer);
      RunOn(limits, Snapshot(map[id := Looking]), [Look(id)] + adding, [Settle(id)]);
      var raised, to, replacement := Decide(r.value, id, chance);
      ghost var decided := Snapshot(if raised then map[] else map[id := Settling(to, replacement)]);
      RunOne(limits, decided, Settle(id), []);
      SettleIs(limits, decided, id);
      if raised {
        return Raised;
      }
      var done := feedback.Transition(id, to, replacement);
      return Settled(to);
    }
  }
}
