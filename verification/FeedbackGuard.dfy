/** Why a request replaces its fact at most once: what the clone, the remote and the applies at work guarantee each
    other, and that every move of one of them keeps it. */
module FeedbackGuard {
  import opened Domain
  import opened Ordering
  import opened Feedback
  import opened GitClone

  /** Where an apply stands. From Committing on it holds the write lock, with its files written but not committed;
      Pushing has committed them. */
  datatype ApplyPc =
    | Looking | Adding | Committing(newer: string, content: string) | Pushing(newer: string)
    | Settling(to: State, replacement: Option<string>)

  type Appliers = map<string, ApplyPc>

  predicate HoldsLock(pc: ApplyPc) {
    pc.Committing? || pc.Pushing?
  }

  ghost predicate Locked(appliers: Appliers) {
    exists id <- appliers :: HoldsLock(appliers[id])
  }

  /** The id of a new fact is one nobody has seen. */
  predicate Fresh(items: Items, g: Git, name: string) {
    name !in g.remote.files && name !in g.clone.Head().files && forall id <- items :: items[id].fact != name
  }

  // ---- the invariant ----------------------------------------------------------------------

  /** Everything unpushed can be replayed, uncommitted files are retired facts, and markers of pushed commits tell
      the truth. */
  ghost predicate CloneOk(g: Git) {
    && AllFit(g.clone.at, g.clone.unpushed)
    && (forall f <- g.clone.torn :: !g.clone.torn[f].active)
    && (forall id <- g.clone.at.markers + g.clone.origin.markers + g.remote.markers :: id in g.commits)
  }

  /** No request for this fact has reached the remote. */
  ghost predicate Unlanded(items: Items, commits: seq<string>, fact: string) {
    forall id <- items :: items[id].fact == fact ==> id !in commits
  }

  predicate MayLand(g: Git, id: string) {
    id in g.restored || id !in g.commits
  }

  ghost predicate ChangeOk(items: Items, g: Git, c: Change) {
    && (c.request.Some? ==> c.request.value in items && items[c.request.value].fact in c.facts && MayLand(g, c.request.value))
    && (c.replacement.Some? ==> Unlanded(items, g.commits, c.replacement.value))
  }

  /** What is unpushed is one commit at most for each request. */
  ghost predicate ChangesOk(items: Items, g: Git) {
    (forall c <- g.clone.unpushed :: ChangeOk(items, g, c)) && Distinct(Named(g.clone.unpushed))
  }

  /** A request that reached the remote does not find its base there, unless somebody put it back. */
  ghost predicate Guards(items: Items, g: Git, repo: Repo) {
    forall id <- g.commits :: id in items && id !in g.restored ==> FileIn(repo, items[id].fact) != Some(items[id].base)
  }

  /** While anything is or is about to be unpushed, the clone has seen all that its own pushes did. */
  ghost predicate Busy(appliers: Appliers, g: Git) {
    g.clone.unpushed != [] || exists id <- appliers :: appliers[id].Committing?
  }

  ghost predicate AtWork(items: Items, g: Git, id: string, pc: ApplyPc) {
    match pc
    case Committing(replacement, _) =>
      && id in items && FileIn(g.clone.Head(), items[id].fact) == Some(items[id].base)
      && replacement !in g.clone.Head().files && Unlanded(items, g.commits, replacement)
      && id !in Named(g.clone.unpushed) && MayLand(g, id)
    case Pushing(_) => id in Named(g.clone.unpushed) || id in g.commits
    case _ => true
  }

  ghost predicate LockOk(items: Items, appliers: Appliers, g: Git) {
    && (forall i <- appliers, j <- appliers :: HoldsLock(appliers[i]) && HoldsLock(appliers[j]) ==> i == j)
    && (forall id <- appliers :: AtWork(items, g, id, appliers[id]))
  }

  ghost predicate OnceOk(items: Items, g: Git) {
    && (forall id <- g.commits :: id in items)
    && (forall id <- g.restored :: id in g.commits)
    && (forall i, j :: 0 <= i < j < |g.commits| && g.commits[i] == g.commits[j] ==> g.commits[i] in g.restored)
  }

  ghost predicate BasesActive(items: Items) {
    forall id <- items :: items[id].base.active
  }

  ghost predicate GitOk(items: Items, appliers: Appliers, g: Git) {
    && CloneOk(g) && ChangesOk(items, g) && Guards(items, g, g.remote)
    && (Busy(appliers, g) ==> Guards(items, g, g.clone.at))
    && LockOk(items, appliers, g) && OnceOk(items, g)
  }

  // ---- what is unpushed -------------------------------------------------------------------

  lemma WaitingIsRetired(items: Items, g: Git, id: string)
    requires CloneOk(g) && ChangesOk(items, g) && id in Named(g.clone.unpushed)
    ensures id in items && items[id].fact in g.clone.Head().files && !g.clone.Head().files[items[id].fact].active
    ensures MayLand(g, id)
  {
    NamedIsRequested(g.clone.unpushed, id);
    var c :| c in g.clone.unpushed && c.request == Some(id);
    assert ChangeOk(items, g, c);
    ReplayedFile(g.clone.at, g.clone.unpushed, items[id].fact);
  }

  /** What guards the commit below the unpushed ones guards the head, too. */
  lemma HeadIsGuarded(items: Items, g: Git, id: string)
    requires BasesActive(items) && CloneOk(g) && ChangesOk(items, g) && Guards(items, g, g.clone.at)
    requires id in g.commits && id in items && id !in g.restored
    ensures FileIn(g.clone.Head(), items[id].fact) != Some(items[id].base)
  {
    var fact := items[id].fact;
    ReplayedFile(g.clone.at, g.clone.unpushed, fact);
    forall c <- g.clone.unpushed ensures c.replacement != Some(fact) {
      assert ChangeOk(items, g, c);
    }
    hide AllFit, Replayed;
  }

  // ---- moves that change no commit --------------------------------------------------------

  /** The applies that hold the lock afterwards held it before, at the same place. */
  ghost predicate NoNewLocks(appliers: Appliers, after: Appliers) {
    forall id <- after :: HoldsLock(after[id]) ==> id in appliers && appliers[id] == after[id]
  }

  lemma FewerLocks(items: Items, appliers: Appliers, after: Appliers, g: Git)
    requires GitOk(items, appliers, g) && NoNewLocks(appliers, after)
    ensures GitOk(items, after, g)
  {
    hide CloneOk, ChangesOk, Guards, OnceOk;
  }

  /** Requests keep their fact and base, and new ones have no commit. */
  ghost predicate SameQuestions(items: Items, after: Items) {
    forall id <- items :: id in after && after[id].fact == items[id].fact && after[id].base == items[id].base
  }

  lemma ItemsMoveOn(items: Items, after: Items, appliers: Appliers, g: Git)
    requires GitOk(items, appliers, g) && SameQuestions(items, after)
    ensures GitOk(after, appliers, g)
  {
    ItemsKeepChanges(items, after, g);
    ItemsKeepLocks(items, after, appliers, g);
    hide CloneOk, ChangesOk, LockOk;
  }

  lemma ItemsKeepChanges(items: Items, after: Items, g: Git)
    requires ChangesOk(items, g) && OnceOk(items, g) && SameQuestions(items, after)
    ensures ChangesOk(after, g)
  {
    forall c <- g.clone.unpushed ensures ChangeOk(after, g, c) {
      assert ChangeOk(items, g, c);
    }
  }

  lemma ItemsKeepLocks(items: Items, after: Items, appliers: Appliers, g: Git)
    requires LockOk(items, appliers, g) && OnceOk(items, g) && SameQuestions(items, after)
    ensures LockOk(after, appliers, g)
  {
    forall id <- appliers ensures AtWork(after, g, id, appliers[id]) {
      assert AtWork(items, g, id, appliers[id]);
    }
  }

  lemma StrandedKeeps(items: Items, appliers: Appliers, g: Git, stranded: set<string>, unheard: set<string>)
    requires GitOk(items, appliers, g)
    ensures GitOk(items, appliers, g.(stranded := stranded, unheard := unheard))
  {
    var h := g.(stranded := stranded, unheard := unheard);
    forall id <- appliers ensures AtWork(items, h, id, appliers[id]) {
      assert AtWork(items, g, id, appliers[id]);
    }
    forall c <- h.clone.unpushed ensures ChangeOk(items, h, c) {
      assert ChangeOk(items, g, c);
    }
    hide AtWork, Named, Replayed, AllFit, ChangeOk;
  }

  lemma FetchKeeps(items: Items, appliers: Appliers, g: Git)
    requires GitOk(items, appliers, g) && !Locked(appliers)
    ensures var h := g.(clone := Fetched(g.clone, g.remote));
            && GitOk(items, appliers, h)
            && (MayWrite(g.clone, g.remote) ==> Guards(items, h, h.clone.at))
  {
    hide Named;
    assert g.clone.unpushed == [] ==> AllFit(g.remote, []);
  }

  /** Once nothing is unpushed and nobody holds the lock, little is left to guard. */
  lemma DropKeeps(items: Items, appliers: Appliers, after: Appliers, g: Git, repo: Repo)
    requires GitOk(items, appliers, g) && !Locked(after) && (repo == g.clone.origin || repo == g.remote)
    ensures GitOk(items, after, g.(clone := Clone(repo, [], map[], repo)))
  {
  }

  lemma TearKeeps(items: Items, appliers: Appliers, g: Git, torn: map<string, File>)
    requires GitOk(items, appliers, g) && forall f <- torn :: !torn[f].active
    ensures GitOk(items, appliers, g.(clone := g.clone.(torn := torn)))
  {
    var h := g.(clone := g.clone.(torn := torn));
    assert h.clone.Head() == g.clone.Head();
    forall id <- appliers ensures AtWork(items, h, id, appliers[id]) {
      assert AtWork(items, g, id, appliers[id]);
    }
    forall c <- h.clone.unpushed ensures ChangeOk(items, h, c) {
      assert ChangeOk(items, g, c);
    }
    hide OnceOk, AtWork, Named, Replayed, AllFit, ChangeOk;
  }

  /** Only the request whose fact somebody puts back loses its guard. */
  lemma EditKeeps(items: Items, appliers: Appliers, g: Git, fact: string, file: Option<File>)
    requires GitOk(items, appliers, g)
    ensures var back := set id <- items | id in g.commits && items[id].fact == fact && file == Some(items[id].base);
            GitOk(items, appliers, Edited(g, fact, file, back))
  {
    var back := set id <- items | id in g.commits && items[id].fact == fact && file == Some(items[id].base);
    var h := Edited(g, fact, file, back);
    assert h.clone.Head() == g.clone.Head();
    forall id <- appliers ensures AtWork(items, h, id, appliers[id]) {
      assert AtWork(items, g, id, appliers[id]);
    }
    forall c <- h.clone.unpushed ensures ChangeOk(items, h, c) {
      assert ChangeOk(items, g, c);
    }
    hide AtWork, Named, Replayed, AllFit, ChangeOk;
  }

  // ---- moves that make commits, move them or push them ------------------------------------

  /** An apply that finds its base under the lock, after a fetch, has no commit anywhere. */
  lemma BeginKeeps(items: Items, appliers: Appliers, g: Git, id: string, replacement: string, content: string)
    requires GitOk(items, appliers, g) && BasesActive(items) && !Locked(appliers) && Guards(items, g, g.clone.at)
    requires id in items && Fresh(items, g, replacement) && g.clone.Seen(items[id].fact) == Some(items[id].base)
    ensures GitOk(items, appliers[id := Committing(replacement, content)], g)
  {
    var after := appliers[id := Committing(replacement, content)];
    if id in Named(g.clone.unpushed) {
      WaitingIsRetired(items, g, id);
    }
    if id in g.commits && id !in g.restored {
      HeadIsGuarded(items, g, id);
    }
    assert AtWork(items, g, id, after[id]);
    hide CloneOk, ChangesOk, Guards, OnceOk, Fresh, AtWork;
  }

  /** One more unpushed commit, with its request if it has one. */
  lemma CommitKeeps(items: Items, appliers: Appliers, after: Appliers, g: Git, c: Change)
    requires GitOk(items, appliers, g) && Guards(items, g, g.clone.at)
    requires Fits(g.clone.Head(), c) && ChangeOk(items, g, c)
    requires c.request.Some? ==> c.request.value !in Named(g.clone.unpushed)
    requires forall id <- after :: HoldsLock(after[id]) ==> after[id].Pushing? && c.request == Some(id)
    ensures GitOk(items, after, g.(clone := g.clone.(unpushed := g.clone.unpushed + [c], torn := g.clone.torn - c.facts)))
  {
    var h := g.(clone := g.clone.(unpushed := g.clone.unpushed + [c], torn := g.clone.torn - c.facts));
    ReplayedMore(g.clone.at, g.clone.unpushed, c);
    OneMore(g.clone.unpushed, c);
    hide Named, AllFit, Fits, Committed;
    forall x <- h.clone.unpushed ensures ChangeOk(items, h, x) {
      assert x == c || ChangeOk(items, g, x);
    }
    forall id <- after ensures AtWork(items, h, id, after[id]) {
    }
  }

  /** A push takes everything unpushed along; each request lands once. */
  lemma LandKeeps(items: Items, appliers: Appliers, g: Git, heard: bool, driver: Option<string>)
    requires GitOk(items, appliers, g) && BasesActive(items) && g.clone.at == g.remote
    requires forall id <- appliers :: !appliers[id].Committing?
    ensures GitOk(items, appliers, Landed(g, heard, driver))
  {
    var h := Landed(g, heard, driver);
    LandedMarkers(items, g, heard, driver);
    LandedGuards(items, g, heard, driver);
    LandedOnce(items, g, heard, driver);
    forall id <- appliers ensures AtWork(items, h, id, appliers[id]) {
      assert AtWork(items, g, id, appliers[id]);
    }
    hide CloneOk, Guards, OnceOk, AtWork, Landed;
    assert h.clone.unpushed == [] by {
      LandedAll(g, heard, driver);
    }
  }

  lemma LandedAll(g: Git, heard: bool, driver: Option<string>)
    ensures Landed(g, heard, driver).clone.unpushed == []
  {
  }

  lemma LandedMarkers(items: Items, g: Git, heard: bool, driver: Option<string>)
    requires CloneOk(g)
    ensures CloneOk(Landed(g, heard, driver))
  {
    ReplayedMarkers(g.clone.at, g.clone.unpushed);
    hide Replayed, Named;
    assert AllFit(g.clone.Head(), []);
  }

  lemma LandedGuards(items: Items, g: Git, heard: bool, driver: Option<string>)
    requires BasesActive(items) && CloneOk(g) && ChangesOk(items, g) && Guards(items, g, g.clone.at)
    ensures Guards(items, Landed(g, heard, driver), g.clone.Head())
  {
    forall id <- Landed(g, heard, driver).commits | id in items && id !in g.restored
      ensures FileIn(g.clone.Head(), items[id].fact) != Some(items[id].base)
    {
      if id in Named(g.clone.unpushed) {
        WaitingIsRetired(items, g, id);
      } else {
        HeadIsGuarded(items, g, id);
      }
    }
  }

  lemma LandedOnce(items: Items, g: Git, heard: bool, driver: Option<string>)
    requires CloneOk(g) && ChangesOk(items, g) && OnceOk(items, g)
    ensures OnceOk(items, Landed(g, heard, driver))
  {
    var h, n := Landed(g, heard, driver), |g.commits|;
    var more := Named(g.clone.unpushed);
    forall id <- more ensures id in items && MayLand(g, id) {
      WaitingIsRetired(items, g, id);
    }
    assert h.commits == g.commits + more;
    assert forall k :: n <= k < |h.commits| ==> h.commits[k] == more[k - n];
    forall i, j | 0 <= i < j < |h.commits| && h.commits[i] == h.commits[j] ensures h.commits[i] in h.restored {
      if i < n <= j {
        assert more[j - n] in more && g.commits[i] in g.commits;
      }
    }
    hide CloneOk, ChangesOk, Named;
  }

  /** A clean rebase moves the unpushed commits on top of the remote. */
  lemma RebaseKeeps(items: Items, appliers: Appliers, g: Git)
    requires GitOk(items, appliers, g) && Rebases(g, true) && forall id <- appliers :: !appliers[id].Committing?
    ensures GitOk(items, appliers, Rebased(g, true))
  {
    var h := Rebased(g, true);
    forall id <- appliers ensures AtWork(items, h, id, appliers[id]) {
      assert AtWork(items, g, id, appliers[id]);
    }
    forall c <- h.clone.unpushed ensures ChangeOk(items, h, c) {
      assert ChangeOk(items, g, c);
    }
    hide AtWork, OnceOk, Named, AllFit, ChangeOk, Replayed;
  }
}
