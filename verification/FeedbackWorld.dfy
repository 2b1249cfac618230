/** Everything that can happen to feedback requests: tasks that are cancelled, processes that crash and start
    again, applies and other writers that commit in the clone and push from it, and edits other people push. */
module FeedbackWorld {
  import opened Domain
  import opened Feedback
  import opened GitClone
  import opened FeedbackGuard

  datatype Task = Spawned | Proposing

  /** Start-up first recovers interrupted applies, then queues unfinished runs, each from a snapshot it loaded. */
  datatype Phase = Down | Recovering(todo: Items) | Requeueing(todo: Items) | Serving

  datatype World = World(items: Items, tasks: map<string, Task>, appliers: Appliers, phase: Phase, git: Git)

  /** Push and Rebase are made by the apply that holds the lock, or, without a name, by another writer of this server. */
  datatype Step =
    | Submit(id: string, fact: string, base: File, kind: Kind, feedback: string)
    | StartRun(id: string)
    | FinishRun(id: string, outcome: Option<Proposal>)
    | CancelRun(id: string)
    | Claim(id: string)
    | Dismiss(id: string)
    | Look(id: string)
    | RefuseAdd(id: string)
    | BeginAdd(id: string, refused: bool, spotted: bool, newer: string, content: string)
    | Commit(id: string)
    | Push(driver: Option<string>, heard: bool)
    | Rebase(driver: Option<string>, clean: bool)
    | GiveUp(id: string)
    | Settle(id: string)
    | AbortApply(id: string)
    | Fetch
    | Discard
    | OtherCommit(change: Change)
    | Tear(fact: string, replacement: Option<string>)
    | Outside(fact: string, file: Option<File>)
    | Crash
    | Boot
    | RecoverNext(id: string)
    | RecoverDone
    | RequeueNext(id: string)
    | RequeueDone

  predicate InState(items: Items, id: string, s: State) {
    id in items && items[id].state == s
  }

  function WithState(items: Items, s: State): Items {
    map id <- items | items[id].state == s :: items[id]
  }

  predicate AtPc(w: World, id: string, pc: ApplyPc) {
    id in w.appliers && w.appliers[id] == pc && id in w.items
  }

  // ---- applying ---------------------------------------------------------------------------

  /** What the local clone says about a claimed request; nobody's lock is needed to look. */
  function LookPc(w: World, id: string): ApplyPc
    requires id in w.items
  {
    var r := w.items[id];
    match w.git.clone.Seen(r.fact)
    case None => Settling(Stale, None)
    case Some(file) =>
      if id in w.git.clone.Head().markers && file.supersededBy.Some? then Settling(Applied, file.supersededBy)
      else if !file.active || file != r.base then Settling(Stale, None)
      else Adding
  }

  /** Under the write lock the clone is fetched, the new fact is checked, the file compared again, and the files are
      written, unless the written one gives a secret away. A clone that cannot follow the remote raises out of the
      apply, and anything refused later resets the clone. */
  ghost function BeginAddStep(w: World, id: string, refused: bool, spotted: bool, newer: string, content: string): World {
    if !AtPc(w, id, Adding) || Locked(w.appliers) || !Fresh(w.items, w.git, newer) then w
    else
      var g := w.git.(clone := Fetched(w.git.clone, w.git.remote));
      if !MayWrite(w.git.clone, w.git.remote) then w.(git := g, appliers := w.appliers - {id})
      else
        var r := w.items[id];
        var seen := g.clone.Seen(r.fact);
        if refused || spotted || seen != Some(r.base) then
          w.(git := g.(clone := Reset(g.clone)), appliers := w.appliers[id := Settling(RefusedAs(refused, seen, r.base), None)])
        else
          w.(git := g.(clone := g.clone.(torn := g.clone.torn[r.fact := Retired(r.base, Some(newer))])),
             appliers := w.appliers[id := Committing(newer, content)])
  }

  /** Where a refused add leaves its request: only a file that has changed makes it stale. */
  function RefusedAs(refused: bool, seen: Option<File>, base: File): State {
    if refused || seen.None? || seen == Some(base) then Proposed else Stale
  }

  /** The commit an apply makes, with its marker in the message. */
  function ChangeFor(items: Items, id: string, newer: string, content: string): Change
    requires id in items
  {
    Change(Some(id), {items[id].fact}, Some(newer), content)
  }

  function WithCommit(g: Git, c: Change): Git {
    g.(clone := g.clone.(unpushed := g.clone.unpushed + [c], torn := g.clone.torn - c.facts))
  }

  function CommitStep(w: World, id: string): World {
    if id in w.appliers && w.appliers[id].Committing? && id in w.items then
      var pc := w.appliers[id];
      w.(git := WithCommit(w.git, ChangeFor(w.items, id, pc.newer, pc.content)), appliers := w.appliers[id := Pushing(pc.newer)])
    else w
  }

  /** An apply drives the clone while it is pushing, other writers while no apply holds the lock. */
  ghost predicate MayDrive(w: World, driver: Option<string>) {
    if driver.Some? then driver.value in w.appliers && w.appliers[driver.value].Pushing? else !Locked(w.appliers)
  }

  /** The remote takes only a push that extends it. An apply that hears of its push ends applied. */
  ghost function PushStep(w: World, driver: Option<string>, heard: bool): World {
    if !MayDrive(w, driver) || w.git.clone.at != w.git.remote then w
    else
      w.(git := Landed(w.git, heard, driver),
         appliers := if heard && driver.Some? then
                       w.appliers[driver.value := Settling(Applied, Some(w.appliers[driver.value].newer))]
                     else w.appliers)
  }

  ghost function RebaseStep(w: World, driver: Option<string>, clean: bool): World {
    if !MayDrive(w, driver) then w
    else
      w.(git := Rebased(w.git, clean),
         appliers := if driver.Some? && !Rebases(w.git, clean) then w.appliers[driver.value := Settling(Proposed, None)] else w.appliers)
  }

  function GiveUpStep(w: World, id: string): World {
    if id in w.appliers && HoldsLock(w.appliers[id]) then
      w.(git := w.git.(clone := Reset(w.git.clone)), appliers := w.appliers[id := Settling(Proposed, None)])
    else w
  }

  function SettleStep(w: World, id: string): World {
    if id in w.appliers && w.appliers[id].Settling? then
      var r := Moved(w.items, id, w.appliers[id].to, w.appliers[id].replacement);
      w.(items := if r.Ok? then r.value else w.items, appliers := w.appliers - {id})
    else w
  }

  predicate EndsApplied(pc: ApplyPc) {
    pc.Settling? && pc.to == Applied
  }

  /** The applies among ids end where they are. Those that have committed and not pushed are stranded, and those that
      know of their push and have not stored it might as well not have heard of it. */
  function Strand(w: World, ids: set<string>): Git {
    var left := set id <- w.appliers | id in ids && w.appliers[id].Pushing? && id in Named(w.git.clone.unpushed);
    var lost := set id <- w.appliers | id in ids && EndsApplied(w.appliers[id]) && id in w.git.commits;
    w.git.(stranded := w.git.stranded + left, unheard := w.git.unheard + lost)
  }

  /** Another writer of this server commits, after a fetch; its push is a step of its own. */
  ghost function OtherCommitStep(w: World, c: Change): World {
    if Locked(w.appliers) || c.request.Some? || (c.replacement.Some? && !Fresh(w.items, w.git, c.replacement.value)) then w
    else
      var g := w.git.(clone := Fetched(w.git.clone, w.git.remote));
      w.(git := if MayWrite(w.git.clone, w.git.remote) && Fits(g.clone.Head(), c) then WithCommit(g, c) else g)
  }

  /** Another writer has written the files of its commit, or was stopped there. */
  ghost function TearStep(w: World, fact: string, newer: Option<string>): World {
    if Locked(w.appliers) || w.git.clone.Seen(fact).None? then w
    else w.(git := w.git.(clone := w.git.clone.(torn := w.git.clone.torn[fact := Retired(w.git.clone.Seen(fact).value, newer)])))
  }

  ghost function OutsideStep(w: World, fact: string, file: Option<File>): World {
    var back := set id <- w.items | id in w.git.commits && w.items[id].fact == fact && file == Some(w.items[id].base);
    w.(git := Edited(w.git, fact, file, back))
  }

  ghost function Next(limits: Limits, w: World, s: Step): World {
    match s
    case Submit(id, fact, base, kind, feedback) =>
      if w.phase != Serving || id in w.items || !base.active then w
      else
        var r := Submitted(w.items, limits, id, fact, base, kind, feedback);
        if r.Err? then w else w.(items := r.value, tasks := w.tasks[id := Spawned])
    case StartRun(id) =>
      if id in w.tasks && w.tasks[id] == Spawned then
        w.(items := Started(w.items, id), tasks := if InState(w.items, id, Queued) then w.tasks[id := Proposing] else w.tasks - {id})
      else w
    case FinishRun(id, outcome) =>
      if id in w.tasks && w.tasks[id] == Proposing then w.(items := Finished(w.items, id, outcome), tasks := w.tasks - {id}) else w
    case CancelRun(id) => w.(tasks := w.tasks - {id})
    case Claim(id) =>
      var r := Claimed(w.items, id);
      if w.phase != Serving || r.Err? then w else w.(items := r.value, appliers := w.appliers[id := Looking])
    case Dismiss(id) =>
      var r := Dismissed(w.items, id);
      if w.phase != Serving || r.Err? then w else w.(items := r.value)
    case Look(id) => if AtPc(w, id, Looking) then w.(appliers := w.appliers[id := LookPc(w, id)]) else w
    case RefuseAdd(id) => if AtPc(w, id, Adding) then w.(appliers := w.appliers[id := Settling(Proposed, None)]) else w
    case BeginAdd(id, refused, spotted, newer, content) => BeginAddStep(w, id, refused, spotted, newer, content)
    case Commit(id) => CommitStep(w, id)
    case Push(driver, heard) => PushStep(w, driver, heard)
    case Rebase(driver, clean) => RebaseStep(w, driver, clean)
    case GiveUp(id) => GiveUpStep(w, id)
    case Settle(id) => SettleStep(w, id)
    case AbortApply(id) => w.(appliers := w.appliers - {id}, git := Strand(w, {id}))
    case Fetch => if Locked(w.appliers) then w else w.(git := w.git.(clone := Fetched(w.git.clone, w.git.remote)))
    case Discard => if Locked(w.appliers) then w else w.(git := w.git.(clone := Reset(w.git.clone)))
    case OtherCommit(change) => OtherCommitStep(w, change)
    case Tear(fact, newer) => TearStep(w, fact, newer)
    case Outside(fact, file) => OutsideStep(w, fact, file)
    case Crash => w.(phase := Down, tasks := map[], appliers := map[], git := Strand(w, w.appliers.Keys))
    case Boot => if w.phase == Down then w.(phase := Recovering(WithState(w.items, Applying))) else w
    case RecoverNext(id) =>
      if w.phase.Recovering? && id in w.phase.todo then
        w.(items := w.items[id := w.phase.todo[id].(state := Proposed)], phase := Recovering(w.phase.todo - {id}))
      else w
    case RecoverDone =>
      if w.phase == Recovering(map[]) then
        w.(phase := Requeueing(map id <- w.items | w.items[id].state == Queued || w.items[id].state == Running :: w.items[id]))
      else w
    case RequeueNext(id) =>
      if w.phase.Requeueing? && id in w.phase.todo then
        w.(items := w.items[id := w.phase.todo[id].(state := Queued)], tasks := w.tasks[id := Spawned],
           phase := Requeueing(w.phase.todo - {id}))
      else w
    case RequeueDone => if w.phase == Requeueing(map[]) then w.(phase := Serving) else w
  }

  function StartGit(files: map<string, File>): Git {
    var repo := Repo(0, files, {});
    Git(Clone(repo, [], map[], repo), repo, [], {}, {}, {})
  }

  function StartWorld(files: map<string, File>): World {
    World(map[], map[], map[], Down, StartGit(files))
  }

  // ---- the invariant ----------------------------------------------------------------------

  /** The state a live task or apply relies on. */
  ghost predicate ProcessesOk(w: World) {
    && (forall id <- w.tasks :: InState(w.items, id, if w.tasks[id] == Spawned then Queued else Running))
    && (forall id <- w.appliers ::
          && InState(w.items, id, Applying)
          && (w.appliers[id].Settling? ==> w.appliers[id].to in AllowedTransitions(Applying)))
  }

  ghost predicate PhaseOk(w: World) {
    match w.phase
    case Serving => true
    case Down => w.tasks == map[] && w.appliers == map[]
    case Recovering(todo) =>
      && w.tasks == map[] && w.appliers == map[]
      && (forall id <- todo :: InState(w.items, id, Applying) && w.items[id] == todo[id])
    case Requeueing(todo) =>
      && w.appliers == map[]
      && (forall id <- todo :: id in w.items && w.items[id] == todo[id] && id !in w.tasks
                               && (todo[id].state == Queued || todo[id].state == Running))
  }

  ghost predicate HasProposals(items: Items) {
    forall id <- items :: items[id].state == Proposed || items[id].state == Applying ==> items[id].proposal.Some?
  }

  ghost predicate RequestsOk(limits: Limits, items: Items) {
    && BasesActive(items)
    && HasProposals(items)
    && (forall i <- items, j <- items :: IsActive(items[i].state) && IsActive(items[j].state) && items[i].fact == items[j].fact ==> i == j)
    && |ActiveIds(items)| <= limits.maxActive
  }

  /** What is unpushed belongs to the apply that is pushing, or was left behind by one; what was left behind has not
      landed, unless before it was put back. */
  ghost predicate StrandedOk(w: World) {
    && (forall id <- Named(w.git.clone.unpushed) :: id in w.git.stranded || (id in w.appliers && w.appliers[id].Pushing?))
    && (forall id <- w.git.stranded :: MayLand(w.git, id))
  }

  /** The request of a push that landed, or of a commit that an apply left unpushed. */
  predicate Proven(w: World, id: string) {
    id in w.git.commits || id in w.git.stranded
  }

  ghost predicate AppliedOk(w: World) {
    && (forall id <- w.items :: w.items[id].state == Applied ==> Proven(w, id))
    && (forall id <- w.appliers :: w.appliers[id].Settling? && w.appliers[id].to == Applied ==> Proven(w, id))
  }

  /** A request that landed is applied, about to be, or its apply did not learn that it landed; and the remote names it. */
  ghost predicate UnheardOk(w: World) {
    && (forall id <- w.git.unheard :: id in w.git.commits)
    && (forall id <- w.git.commits :: id in w.git.unheard || InState(w.items, id, Applied) || (id in w.appliers && EndsApplied(w.appliers[id])))
    && (forall id <- w.git.commits :: id in w.git.remote.markers)
  }

  ghost predicate WorldOk(limits: Limits, w: World) {
    && ProcessesOk(w) && PhaseOk(w) && RequestsOk(limits, w.items) && GitOk(w.items, w.appliers, w.git)
    && StrandedOk(w) && AppliedOk(w) && UnheardOk(w)
  }

  /** Every stored state change is an allowed transition, and what was asked about which fact never changes. */
  ghost predicate Follows(items: Items, after: Items) {
    && (forall id <- items :: id in after && after[id].fact == items[id].fact && after[id].base == items[id].base
                              && (after[id].state == items[id].state || after[id].state in AllowedTransitions(items[id].state)))
    && (forall id <- after :: id in items || after[id].state == Queued)
  }
}
