/** Every step of the feedback world keeps its invariant. */
module FeedbackProofs {
  import opened Domain
  import opened Feedback
  import opened GitClone
  import opened FeedbackGuard
  import opened FeedbackWorld

  // ---- every step keeps it ----------------------------------------------------------------

  /** A request may become this one: same question, an allowed state, and a proposal where the state asks for one. */
  predicate Becomes(r: Request, after: Request) {
    && after.fact == r.fact && after.base == r.base
    && (after.state == r.state || after.state in AllowedTransitions(r.state))
    && (after.state == Proposed || after.state == Applying ==> after.proposal.Some?)
  }

  /** At most one request changed. */
  ghost predicate OneBecomes(items: Items, after: Items) {
    after == items || exists id <- items :: id in after && after == items[id := after[id]] && Becomes(items[id], after[id])
  }

  lemma BecomesFollows(items: Items, after: Items)
    requires OneBecomes(items, after)
    ensures Follows(items, after) && after.Keys == items.Keys && (HasProposals(items) ==> HasProposals(after))
  {
  }

  lemma RunChanges(limits: Limits, w: World, s: Step)
    requires ProcessesOk(w) && (s.StartRun? || s.FinishRun?)
    ensures OneBecomes(w.items, Next(limits, w, s).items)
  {
    var u := Next(limits, w, s);
    if u.items != w.items {
      assert u.items == w.items[s.id := u.items[s.id]];
    }
  }

  lemma UserChanges(limits: Limits, w: World, s: Step)
    requires ProcessesOk(w) && HasProposals(w.items) && (s.Claim? || s.Dismiss? || s.Settle?)
    ensures OneBecomes(w.items, Next(limits, w, s).items)
  {
    var u := Next(limits, w, s);
    if u.items != w.items {
      assert u.items == w.items[s.id := u.items[s.id]];
    }
  }

  lemma BootChanges(limits: Limits, w: World, s: Step)
    requires PhaseOk(w) && HasProposals(w.items) && (s.RecoverNext? || s.RequeueNext?)
    ensures OneBecomes(w.items, Next(limits, w, s).items)
  {
    if !w.phase.Serving? && !w.phase.Down? && s.id in w.phase.todo {
      var r := w.items[s.id];
      var after := r.(state := if s.RecoverNext? then Proposed else Queued);
      if Next(limits, w, s).items != w.items {
        assert Becomes(r, after);
        assert Next(limits, w, s).items == w.items[s.id := after];
      }
    }
  }

  predicate ChangesItems(s: Step) {
    s.Submit? || s.StartRun? || s.FinishRun? || s.Claim? || s.Dismiss? || s.Settle? || s.RecoverNext? || s.RequeueNext?
  }

  lemma OthersChangeNothing(limits: Limits, w: World, s: Step)
    requires !ChangesItems(s)
    ensures Next(limits, w, s).items == w.items
  {
    hide Landed, Rebased, Reset, Edited, LookPc, Fetched, WithCommit, Fresh, MayWrite;
  }

  lemma StepBecomes(limits: Limits, w: World, s: Step)
    requires ProcessesOk(w) && PhaseOk(w) && HasProposals(w.items) && !s.Submit?
    ensures OneBecomes(w.items, Next(limits, w, s).items)
  {
    hide ProcessesOk, PhaseOk, HasProposals, Next, Becomes;
    if s.StartRun? || s.FinishRun? {
      RunChanges(limits, w, s);
    } else if s.Claim? || s.Dismiss? || s.Settle? {
      UserChanges(limits, w, s);
    } else if s.RecoverNext? || s.RequeueNext? {
      BootChanges(limits, w, s);
    } else {
      OthersChangeNothing(limits, w, s);
    }
  }

  lemma StepFollows(limits: Limits, w: World, s: Step)
    requires ProcessesOk(w) && PhaseOk(w) && HasProposals(w.items)
    ensures Follows(w.items, Next(limits, w, s).items)
  {
    if s.Submit? {
      hide Strip, ActiveIds;
    } else {
      hide Next, OneBecomes, Follows;
      StepBecomes(limits, w, s);
      BecomesFollows(w.items, Next(limits, w, s).items);
    }
  }

  /** The steps of an apply after its claim. */
  predicate IsApplyStep(s: Step) {
    s.Look? || s.RefuseAdd? || s.BeginAdd? || s.Commit? || s.Push? || s.Rebase? || s.GiveUp? || s.Settle? || s.AbortApply?
  }

  /** The steps of other writers and of the outside. */
  predicate IsCloneStep(s: Step) {
    s.Fetch? || s.Discard? || s.OtherCommit? || s.Tear? || s.Outside?
  }

  predicate IsTaskStep(s: Step) {
    s.Submit? || s.StartRun? || s.FinishRun? || s.CancelRun?
  }

  lemma TasksKeepProcesses(limits: Limits, w: World, s: Step)
    requires ProcessesOk(w) && IsTaskStep(s)
    ensures ProcessesOk(Next(limits, w, s))
  {
    hide Strip, ActiveIds;
  }

  /** The steps that an apply makes under the lock. */
  predicate IsLockStep(s: Step) {
    s.BeginAdd? || s.Commit? || s.Push? || s.Rebase? || s.GiveUp?
  }

  lemma LockKeepsProcesses(limits: Limits, w: World, s: Step)
    requires ProcessesOk(w) && IsLockStep(s)
    ensures ProcessesOk(Next(limits, w, s))
  {
    hide Landed, Rebased, Reset, Fetched, WithCommit, Fresh, MayWrite, Rebases, Locked, Named, Replayed;
  }

  lemma ApplyKeepsProcesses(limits: Limits, w: World, s: Step)
    requires ProcessesOk(w) && IsApplyStep(s)
    ensures ProcessesOk(Next(limits, w, s))
  {
    if IsLockStep(s) {
      hide Next, ProcessesOk;
      LockKeepsProcesses(limits, w, s);
    } else {
      hide Strand, Replayed;
    }
  }

  lemma ClonesKeepProcesses(limits: Limits, w: World, s: Step)
    requires IsCloneStep(s)
    ensures var u := Next(limits, w, s);
            u.items == w.items && u.tasks == w.tasks && u.appliers == w.appliers && u.phase == w.phase
  {
    hide Landed, Reset, Fetched, WithCommit, Fresh, MayWrite, Fits, Edited, Retired;
  }

  lemma ProcessesKept(limits: Limits, w: World, s: Step)
    requires ProcessesOk(w) && PhaseOk(w)
    ensures ProcessesOk(Next(limits, w, s))
  {
    if IsApplyStep(s) {
      hide Next, ProcessesOk;
      ApplyKeepsProcesses(limits, w, s);
    } else if IsTaskStep(s) {
      hide Next, ProcessesOk;
      TasksKeepProcesses(limits, w, s);
    } else if IsCloneStep(s) {
      hide Next;
      ClonesKeepProcesses(limits, w, s);
    }
  }

  lemma PhaseKept(limits: Limits, w: World, s: Step)
    requires ProcessesOk(w) && PhaseOk(w)
    ensures PhaseOk(Next(limits, w, s))
  {
    if IsCloneStep(s) {
      hide Next;
      ClonesKeepProcesses(limits, w, s);
    } else if IsApplyStep(s) {
      hide Next, ProcessesOk;
      ApplyKeepsPhase(limits, w, s);
    } else {
      hide Strip, ActiveIds;
    }
  }

  /** Applies run while serving only, and change neither phase nor tasks. */
  lemma ApplyKeepsPhase(limits: Limits, w: World, s: Step)
    requires PhaseOk(w) && IsApplyStep(s)
    ensures PhaseOk(Next(limits, w, s))
  {
    hide Landed, Rebased, Reset, Fetched, WithCommit, Fresh, MayWrite, Rebases, Named, Replayed, LookPc;
  }

  // ---- requests ---------------------------------------------------------------------------

  /** A changed request is active only if it was. */
  lemma ActiveShrinks(limits: Limits, items: Items, after: Items)
    requires RequestsOk(limits, items) && after.Keys == items.Keys && Follows(items, after)
    requires HasProposals(after)
    ensures RequestsOk(limits, after)
  {
    assert ActiveIds(after) <= ActiveIds(items);
    Subset(ActiveIds(after), ActiveIds(items));
  }

  lemma Subset(s: set<string>, t: set<string>)
    requires s <= t
    ensures |s| <= |t|
  {
    assert |t - s| == |t| - |s|;
  }

  lemma SubmitAddsActive(items: Items, id: string, r: Request)
    requires id !in items && r.state == Queued
    ensures ActiveIds(items[id := r]) == ActiveIds(items) + {id} && id !in ActiveIds(items)
  {
  }

  lemma AddingKeepsRequests(limits: Limits, items: Items, id: string, r: Request)
    requires RequestsOk(limits, items) && id !in items && r.base.active && r.state == Queued
    requires |ActiveIds(items)| < limits.maxActive
    requires forall other <- ActiveIds(items) :: items[other].fact != r.fact
    ensures RequestsOk(limits, items[id := r])
  {
    SubmitAddsActive(items, id, r);
    forall other <- items | IsActive(items[other].state) ensures other in ActiveIds(items) {
    }
    hide ActiveIds;
  }

  lemma SubmitKeepsRequests(limits: Limits, items: Items, id: string, fact: string, base: File, kind: Kind, feedback: string)
    requires RequestsOk(limits, items) && id !in items && base.active
    requires Submitted(items, limits, id, fact, base, kind, feedback).Ok?
    ensures RequestsOk(limits, Submitted(items, limits, id, fact, base, kind, feedback).value)
  {
    hide Strip, RequestsOk, ActiveIds;
    AddingKeepsRequests(limits, items, id, Request(fact, base, Strip(feedback), Queued, None, None));
  }

  lemma RequestsKept(limits: Limits, w: World, s: Step)
    requires ProcessesOk(w) && PhaseOk(w) && RequestsOk(limits, w.items)
    ensures RequestsOk(limits, Next(limits, w, s).items)
  {
    if s.Submit? {
      hide Submitted;
      if Next(limits, w, s).items != w.items {
        SubmitKeepsRequests(limits, w.items, s.id, s.fact, s.base, s.kind, s.feedback);
      }
    } else {
      assert HasProposals(w.items);
      hide Next, OneBecomes, Follows, RequestsOk, HasProposals;
      StepBecomes(limits, w, s);
      BecomesFollows(w.items, Next(limits, w, s).items);
      ActiveShrinks(limits, w.items, Next(limits, w, s).items);
    }
  }

  // ---- the clone and the remote -----------------------------------------------------------

  lemma StillFresh(items: Items, g: Git, name: string)
    requires Fresh(items, g, name)
    ensures Fresh(items, g.(clone := Fetched(g.clone, g.remote)), name)
  {
  }

  lemma BeginKeepsGit(w: World, id: string, refused: bool, spotted: bool, newer: string, content: string)
    requires GitOk(w.items, w.appliers, w.git) && BasesActive(w.items)
    ensures var u := BeginAddStep(w, id, refused, spotted, newer, content); GitOk(w.items, u.appliers, u.git)
  {
    hide GitOk, Fetched, Guards, Fresh, MayWrite, BasesActive;
    if AtPc(w, id, Adding) && !Locked(w.appliers) && Fresh(w.items, w.git, newer) {
      FetchKeeps(w.items, w.appliers, w.git);
      StillFresh(w.items, w.git, newer);
      var g := w.git.(clone := Fetched(w.git.clone, w.git.remote));
      var u := BeginAddStep(w, id, refused, spotted, newer, content);
      if !MayWrite(w.git.clone, w.git.remote) {
        FewerLocks(w.items, w.appliers, u.appliers, g);
      } else if refused || spotted || g.clone.Seen(w.items[id].fact) != Some(w.items[id].base) {
        DropKeeps(w.items, w.appliers, u.appliers, g, g.clone.origin);
      } else {
        BeginKeeps(w.items, w.appliers, g, id, newer, content);
        TornIsRetired(w.items, u.appliers, g);
        TearKeeps(w.items, u.appliers, g, g.clone.torn[w.items[id].fact := Retired(w.items[id].base, Some(newer))]);
      }
    }
  }

  lemma TornIsRetired(items: Items, appliers: Appliers, g: Git)
    requires GitOk(items, appliers, g)
    ensures forall f <- g.clone.torn :: !g.clone.torn[f].active
  {
    hide ChangesOk, Guards, LockOk, OnceOk;
  }

  lemma CommitKeepsGit(w: World, id: string)
    requires GitOk(w.items, w.appliers, w.git)
    ensures var u := CommitStep(w, id); GitOk(w.items, u.appliers, u.git)
  {
    if id in w.appliers && w.appliers[id].Committing? && id in w.items {
      var pc := w.appliers[id];
      assert AtWork(w.items, w.git, id, pc);
      assert Busy(w.appliers, w.git);
      assert forall x <- w.appliers :: HoldsLock(w.appliers[x]) ==> x == id;
      hide GitOk;
      CommitKeeps(w.items, w.appliers, CommitStep(w, id).appliers, w.git, ChangeFor(w.items, id, pc.newer, pc.content));
    }
  }

  /** No apply is in the middle of a commit while one drives the clone. */
  lemma DriverIsAlone(w: World, driver: Option<string>)
    requires GitOk(w.items, w.appliers, w.git) && MayDrive(w, driver)
    ensures forall id <- w.appliers :: HoldsLock(w.appliers[id]) ==> driver == Some(id)
    ensures forall id <- w.appliers :: !w.appliers[id].Committing?
  {
    hide CloneOk, ChangesOk, Guards, OnceOk;
  }

  lemma PushKeepsGit(w: World, driver: Option<string>, heard: bool)
    requires GitOk(w.items, w.appliers, w.git) && BasesActive(w.items)
    ensures var u := PushStep(w, driver, heard); GitOk(w.items, u.appliers, u.git)
  {
    hide GitOk, Landed, BasesActive;
    if MayDrive(w, driver) && w.git.clone.at == w.git.remote {
      DriverIsAlone(w, driver);
      LandKeeps(w.items, w.appliers, w.git, heard, driver);
      FewerLocks(w.items, w.appliers, PushStep(w, driver, heard).appliers, Landed(w.git, heard, driver));
    }
  }

  lemma RebaseKeepsGit(w: World, driver: Option<string>, clean: bool)
    requires GitOk(w.items, w.appliers, w.git)
    ensures var u := RebaseStep(w, driver, clean); GitOk(w.items, u.appliers, u.git)
  {
    hide GitOk;
    if MayDrive(w, driver) {
      DriverIsAlone(w, driver);
      if Rebases(w.git, clean) {
        RebaseKeeps(w.items, w.appliers, w.git);
      } else {
        DropKeeps(w.items, w.appliers, RebaseStep(w, driver, clean).appliers, w.git, w.git.remote);
      }
    }
  }

  lemma GiveUpKeepsGit(w: World, id: string)
    requires GitOk(w.items, w.appliers, w.git)
    ensures var u := GiveUpStep(w, id); GitOk(w.items, u.appliers, u.git)
  {
    var u := GiveUpStep(w, id);
    if u != w {
      assert forall x <- w.appliers :: HoldsLock(w.appliers[x]) ==> x == id by {
        hide CloneOk, ChangesOk, Guards, OnceOk;
      }
      hide GitOk;
      DropKeeps(w.items, w.appliers, u.appliers, w.git, w.git.clone.origin);
    }
  }

  lemma OtherCommitKeepsGit(w: World, c: Change)
    requires GitOk(w.items, w.appliers, w.git)
    ensures GitOk(w.items, w.appliers, OtherCommitStep(w, c).git)
  {
    var g := w.git.(clone := Fetched(w.git.clone, w.git.remote));
    if OtherCommitStep(w, c) != w {
      hide GitOk, Fetched, Guards, MayWrite, Fits;
      FetchKeeps(w.items, w.appliers, w.git);
      if MayWrite(w.git.clone, w.git.remote) && Fits(g.clone.Head(), c) {
        assert ChangeOk(w.items, g, c);
        CommitKeeps(w.items, w.appliers, w.appliers, g, c);
      }
    }
  }

  lemma TearKeepsGit(w: World, fact: string, newer: Option<string>)
    requires GitOk(w.items, w.appliers, w.git)
    ensures GitOk(w.items, w.appliers, TearStep(w, fact, newer).git)
  {
    hide GitOk;
    var u := TearStep(w, fact, newer);
    if u != w {
      TornIsRetired(w.items, w.appliers, w.git);
      TearKeeps(w.items, w.appliers, w.git, u.git.clone.torn);
    }
  }

  predicate MovesGit(s: Step) {
    s.BeginAdd? || s.Commit? || s.Push? || s.Rebase? || s.GiveUp? || IsCloneStep(s)
  }

  /** All other steps leave clone and remote alone and take no lock. */
  lemma QuietSteps(limits: Limits, w: World, s: Step)
    requires !MovesGit(s)
    ensures var u := Next(limits, w, s); u.git == w.git.(stranded := u.git.stranded, unheard := u.git.unheard) && NoNewLocks(w.appliers, u.appliers)
  {
    hide Strip, ActiveIds, LookPc, Named;
    assert s.Look? && s.id in w.items ==> !HoldsLock(LookPc(w, s.id)) by {
      LookTakesNoLock(w, s);
    }
  }

  lemma LookTakesNoLock(w: World, s: Step)
    ensures s.Look? && s.id in w.items ==> !HoldsLock(LookPc(w, s.id))
  {
  }

  lemma CloneKeepsGit(limits: Limits, w: World, s: Step)
    requires GitOk(w.items, w.appliers, w.git) && IsCloneStep(s)
    ensures GitOk(w.items, w.appliers, Next(limits, w, s).git)
  {
    hide GitOk, Fetched, Edited;
    match s
    case Fetch => if !Locked(w.appliers) { FetchKeeps(w.items, w.appliers, w.git); }
    case Discard => if !Locked(w.appliers) { DropKeeps(w.items, w.appliers, w.appliers, w.git, w.git.clone.origin); }
    case OtherCommit(c) => OtherCommitKeepsGit(w, c);
    case Tear(fact, newer) => TearKeepsGit(w, fact, newer);
    case Outside(fact, file) => EditKeeps(w.items, w.appliers, w.git, fact, file);
  }

  lemma GitKept(limits: Limits, w: World, s: Step)
    requires ProcessesOk(w) && PhaseOk(w) && RequestsOk(limits, w.items) && GitOk(w.items, w.appliers, w.git)
    ensures var u := Next(limits, w, s); GitOk(u.items, u.appliers, u.git)
  {
    hide ProcessesOk, PhaseOk, HasProposals, GitOk;
    var u := Next(limits, w, s);
    if IsCloneStep(s) {
      hide Next;
      ClonesKeepProcesses(limits, w, s);
      CloneKeepsGit(limits, w, s);
    } else if MovesGit(s) {
      hide BeginAddStep, CommitStep, PushStep, RebaseStep, GiveUpStep;
      OthersChangeNothing(limits, w, s);
      match s
      case BeginAdd(id, refused, spotted, newer, content) => BeginKeepsGit(w, id, refused, spotted, newer, content);
      case Commit(id) => CommitKeepsGit(w, id);
      case Push(driver, heard) => PushKeepsGit(w, driver, heard);
      case Rebase(driver, clean) => RebaseKeepsGit(w, driver, clean);
      case GiveUp(id) => GiveUpKeepsGit(w, id);
      case _ =>
    } else {
      hide Next;
      QuietSteps(limits, w, s);
      StepFollows(limits, w, s);
      ItemsMoveOn(w.items, u.items, w.appliers, w.git);
      FewerLocks(u.items, w.appliers, u.appliers, w.git);
      StrandedKeeps(u.items, u.appliers, w.git, u.git.stranded, u.git.unheard);
    }
  }

  // ---- stranded and applied ---------------------------------------------------------------

  /** From w to u nothing is committed or pushed, and what stays unpushed keeps its apply. */
  ghost predicate LeavesUnpushed(w: World, u: World) {
    && u.git.commits == w.git.commits && w.git.restored <= u.git.restored && u.git.stranded == w.git.stranded
    && (u.git.clone.unpushed == []
        || (u.git.clone.unpushed == w.git.clone.unpushed
            && forall id <- w.appliers :: w.appliers[id].Pushing? ==> id in u.appliers && u.appliers[id].Pushing?))
  }

  lemma LeavesStranded(w: World, u: World)
    requires StrandedOk(w) && LeavesUnpushed(w, u)
    ensures StrandedOk(u)
  {
    assert Named([]) == [];
    hide Named;
  }

  lemma ClonesLeave(limits: Limits, w: World, s: Step)
    requires IsCloneStep(s) && !s.OtherCommit?
    ensures LeavesUnpushed(w, Next(limits, w, s))
  {
    hide TornUntouched, Replayed, AllFit, Retired;
  }

  lemma ApplyLeaves(limits: Limits, w: World, s: Step)
    requires IsApplyStep(s) && !s.Commit? && !s.Push? && !s.AbortApply?
    ensures LeavesUnpushed(w, Next(limits, w, s))
  {
    hide Named, Replayed, AllFit, LookPc, Fresh, MayWrite, TornUntouched, Rebases, Retired;
  }

  lemma OthersLeave(limits: Limits, w: World, s: Step)
    requires ProcessesOk(w) && !IsCloneStep(s) && !IsApplyStep(s) && !s.Crash?
    ensures LeavesUnpushed(w, Next(limits, w, s))
  {
    hide Named, Replayed, Strip, ActiveIds;
  }

  lemma PushKeepsStranded(w: World, driver: Option<string>, heard: bool)
    requires StrandedOk(w) && MayDrive(w, driver)
    ensures StrandedOk(PushStep(w, driver, heard))
  {
    assert Named([]) == [];
    hide Named, Replayed;
  }

  lemma StrandKeepsStranded(limits: Limits, w: World, s: Step)
    requires StrandedOk(w) && GitOk(w.items, w.appliers, w.git) && (s.Crash? || s.AbortApply?)
    ensures StrandedOk(Next(limits, w, s))
  {
    WaitingMayLand(w);
    hide GitOk, Named, Replayed;
  }

  lemma WaitingMayLand(w: World)
    requires GitOk(w.items, w.appliers, w.git)
    ensures forall id <- Named(w.git.clone.unpushed) :: MayLand(w.git, id)
  {
    forall id <- Named(w.git.clone.unpushed) ensures MayLand(w.git, id) {
      WaitingIsRetired(w.items, w.git, id);
    }
  }

  /** Nothing unpushed loses its apply without being recorded as stranded. */
  lemma StrandedKept(limits: Limits, w: World, s: Step)
    requires ProcessesOk(w) && StrandedOk(w) && GitOk(w.items, w.appliers, w.git)
    ensures StrandedOk(Next(limits, w, s))
  {
    hide StrandedOk, GitOk, LeavesUnpushed, ProcessesOk;
    if s.Commit? {
      hide CommitStep;
      CommitKeepsStranded(w, s.id);
    } else if s.OtherCommit? {
      hide OtherCommitStep;
      OtherCommitKeepsStranded(w, s.change);
    } else if s.Push? {
      if MayDrive(w, s.driver) {
        PushKeepsStranded(w, s.driver, s.heard);
      }
    } else {
      hide Next;
      if s.Crash? || s.AbortApply? {
        StrandKeepsStranded(limits, w, s);
      } else {
        if IsCloneStep(s) {
          ClonesLeave(limits, w, s);
        } else if IsApplyStep(s) {
          ApplyLeaves(limits, w, s);
        } else {
          OthersLeave(limits, w, s);
        }
        LeavesStranded(w, Next(limits, w, s));
      }
    }
  }

  lemma CommitKeepsStranded(w: World, id: string)
    requires StrandedOk(w)
    ensures StrandedOk(CommitStep(w, id))
  {
    if id in w.appliers && w.appliers[id].Committing? && id in w.items {
      ReplayedMore(w.git.clone.at, w.git.clone.unpushed, ChangeFor(w.items, id, w.appliers[id].newer, w.appliers[id].content));
    }
    hide Named, Replayed, AllFit;
  }

  lemma OtherCommitKeepsStranded(w: World, c: Change)
    requires StrandedOk(w)
    ensures StrandedOk(OtherCommitStep(w, c))
  {
    ReplayedMore(w.git.clone.at, w.git.clone.unpushed, c);
    hide Named, Replayed, AllFit, Fresh, MayWrite, TornUntouched;
  }

  /** An apply that finds its marker in the clone ends applied: the commit landed, or an earlier apply left it there. */
  lemma LookedIsProven(w: World, id: string)
    requires GitOk(w.items, w.appliers, w.git) && StrandedOk(w) && AtPc(w, id, Looking)
    requires LookPc(w, id).Settling? && LookPc(w, id).to == Applied
    ensures Proven(w, id)
  {
    assert CloneOk(w.git);
    ReplayedMarkers(w.git.clone.at, w.git.clone.unpushed);
    hide GitOk, Named, Replayed, AllFit;
  }

  lemma PushedIsProven(w: World, driver: Option<string>, heard: bool)
    requires GitOk(w.items, w.appliers, w.git) && AppliedOk(w)
    ensures AppliedOk(PushStep(w, driver, heard))
  {
    if MayDrive(w, driver) && driver.Some? {
      assert AtWork(w.items, w.git, driver.value, w.appliers[driver.value]);
    }
    hide GitOk, Named, Replayed;
  }

  lemma ClonesKeepApplied(limits: Limits, w: World, s: Step)
    requires AppliedOk(w) && IsCloneStep(s)
    ensures AppliedOk(Next(limits, w, s))
  {
    hide Replayed, AllFit, Fresh, TornUntouched, Fits, Retired;
  }

  lemma ApplyKeepsApplied(limits: Limits, w: World, s: Step)
    requires ProcessesOk(w) && AppliedOk(w) && IsApplyStep(s) && !s.Push? && !s.Look?
    ensures AppliedOk(Next(limits, w, s))
  {
    if IsLockStep(s) {
      hide Next, AppliedOk, ProcessesOk;
      LockKeepsApplied(limits, w, s);
    } else {
      hide Named, Replayed;
    }
  }

  lemma LockKeepsApplied(limits: Limits, w: World, s: Step)
    requires AppliedOk(w) && IsLockStep(s) && !s.Push?
    ensures AppliedOk(Next(limits, w, s))
  {
    hide Named, Replayed, AllFit, Fresh, MayWrite, TornUntouched, Rebases, Fits, Retired;
  }

  lemma OthersKeepApplied(limits: Limits, w: World, s: Step)
    requires PhaseOk(w) && AppliedOk(w) && !IsApplyStep(s) && !IsCloneStep(s)
    ensures AppliedOk(Next(limits, w, s))
  {
    hide Named, Replayed, Strip, ActiveIds;
  }

  lemma AppliedKept(limits: Limits, w: World, s: Step)
    requires ProcessesOk(w) && PhaseOk(w) && GitOk(w.items, w.appliers, w.git) && StrandedOk(w) && AppliedOk(w)
    ensures AppliedOk(Next(limits, w, s))
  {
    hide GitOk, ProcessesOk, PhaseOk, StrandedOk;
    match s
    case Push(driver, heard) =>
      hide AppliedOk, PushStep;
      PushedIsProven(w, driver, heard);
    case Look(id) =>
      hide LookPc, Proven;
      if AtPc(w, id, Looking) && LookPc(w, id).Settling? && LookPc(w, id).to == Applied {
        LookedIsProven(w, id);
      }
      SameProven(w, w.appliers[id := if id in w.items then LookPc(w, id) else Looking]);
    case _ =>
      hide Next, AppliedOk;
      if IsCloneStep(s) {
        ClonesKeepApplied(limits, w, s);
      } else if IsApplyStep(s) {
        ApplyKeepsApplied(limits, w, s);
      } else {
        OthersKeepApplied(limits, w, s);
      }
  }

  lemma SameProven(w: World, appliers: Appliers)
    ensures forall id :: Proven(w.(appliers := appliers), id) <==> Proven(w, id)
  {
  }

  // ---- landed and not applied -------------------------------------------------------------

  /** From w to u nothing lands or is forgotten, what is applied stays so, and what is about to be applied ends so or
      goes on. */
  ghost predicate KeepsHearing(w: World, u: World) {
    && u.git.commits == w.git.commits && u.git.unheard == w.git.unheard && u.git.remote.markers == w.git.remote.markers
    && (forall id <- w.items :: InState(w.items, id, Applied) ==> InState(u.items, id, Applied))
    && (forall id <- w.appliers :: EndsApplied(w.appliers[id]) ==>
          InState(u.items, id, Applied) || (id in u.appliers && EndsApplied(u.appliers[id])))
  }

  lemma HearingKept(w: World, u: World)
    requires UnheardOk(w) && KeepsHearing(w, u)
    ensures UnheardOk(u)
  {
    hide EndsApplied;
  }

  lemma ClonesKeepHearing(limits: Limits, w: World, s: Step)
    requires IsCloneStep(s)
    ensures KeepsHearing(w, Next(limits, w, s))
  {
    hide Replayed, AllFit, Fresh, TornUntouched, Fits, Retired, EndsApplied;
  }

  lemma LockKeepsHearing(limits: Limits, w: World, s: Step)
    requires IsLockStep(s) && !s.Push?
    ensures KeepsHearing(w, Next(limits, w, s))
  {
    hide Named, Replayed, AllFit, Fresh, MayWrite, TornUntouched, Rebases, Fits, Retired;
  }

  lemma SettleKeepsHearing(w: World, id: string)
    requires ProcessesOk(w)
    ensures KeepsHearing(w, SettleStep(w, id))
  {
  }

  /** The steps that are left touch neither the clone nor an apply that is settling. */
  lemma OthersLeaveAppliers(limits: Limits, w: World, s: Step)
    requires ProcessesOk(w) && !IsCloneStep(s) && !IsLockStep(s) && !s.Settle? && !s.AbortApply? && !s.Crash?
    ensures var u := Next(limits, w, s);
            && u.git == w.git
            && (forall id <- w.appliers :: EndsApplied(w.appliers[id]) ==> id in u.appliers && EndsApplied(u.appliers[id]))
  {
    hide Submitted, Dismissed, Started, Finished, WithState, LookPc;
  }

  lemma OthersKeepHearing(limits: Limits, w: World, s: Step)
    requires ProcessesOk(w) && PhaseOk(w) && HasProposals(w.items)
    requires !IsCloneStep(s) && !IsLockStep(s) && !s.Settle? && !s.AbortApply? && !s.Crash?
    ensures KeepsHearing(w, Next(limits, w, s))
  {
    hide Follows, ProcessesOk, PhaseOk, HasProposals, Next, EndsApplied, InState;
    StepFollows(limits, w, s);
    OthersLeaveAppliers(limits, w, s);
    AppliedStays(w.items, Next(limits, w, s).items);
  }

  lemma AppliedStays(items: Items, after: Items)
    requires Follows(items, after)
    ensures forall id <- items :: InState(items, id, Applied) ==> InState(after, id, Applied)
  {
  }

  lemma PushKeepsUnheard(w: World, driver: Option<string>, heard: bool)
    requires GitOk(w.items, w.appliers, w.git) && UnheardOk(w)
    ensures UnheardOk(PushStep(w, driver, heard))
  {
    ReplayedMarkers(w.git.clone.at, w.git.clone.unpushed);
    if MayDrive(w, driver) && driver.Some? {
      assert AtWork(w.items, w.git, driver.value, w.appliers[driver.value]);
    }
    hide GitOk, Named, Replayed, AllFit;
  }

  lemma StrandKeepsUnheard(limits: Limits, w: World, s: Step)
    requires UnheardOk(w) && (s.Crash? || s.AbortApply?)
    ensures UnheardOk(Next(limits, w, s))
  {
    hide Named, Replayed;
  }

  lemma UnheardKept(limits: Limits, w: World, s: Step)
    requires ProcessesOk(w) && PhaseOk(w) && HasProposals(w.items) && GitOk(w.items, w.appliers, w.git) && UnheardOk(w)
    ensures UnheardOk(Next(limits, w, s))
  {
    hide ProcessesOk, PhaseOk, HasProposals, GitOk, UnheardOk, KeepsHearing;
    if s.Push? {
      hide PushStep;
      PushKeepsUnheard(w, s.driver, s.heard);
    } else if s.Settle? {
      hide SettleStep;
      SettleKeepsHearing(w, s.id);
      HearingKept(w, SettleStep(w, s.id));
    } else {
      hide Next;
      if s.Crash? || s.AbortApply? {
        StrandKeepsUnheard(limits, w, s);
      } else {
        if IsCloneStep(s) {
          ClonesKeepHearing(limits, w, s);
        } else if IsLockStep(s) {
          LockKeepsHearing(limits, w, s);
        } else {
          OthersKeepHearing(limits, w, s);
        }
        HearingKept(w, Next(limits, w, s));
      }
    }
  }

  lemma StepKeepsWorld(limits: Limits, w: World, s: Step)
    requires WorldOk(limits, w)
    ensures WorldOk(limits, Next(limits, w, s))
  {
    assert HasProposals(w.items);
    hide ProcessesOk, PhaseOk, RequestsOk, GitOk, StrandedOk, AppliedOk, UnheardOk, HasProposals, Next;
    ProcessesKept(limits, w, s);
    PhaseKept(limits, w, s);
    RequestsKept(limits, w, s);
    GitKept(limits, w, s);
    StrandedKept(limits, w, s);
    AppliedKept(limits, w, s);
    UnheardKept(limits, w, s);
  }
}
