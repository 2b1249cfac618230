/** The server's clone of the fact repository: commits it has not pushed yet, files it has not committed yet, and a
    remote that others push to. */
module GitClone {
  import opened Domain
  import opened Ordering
  import opened Feedback

  /** One commit of the linear history of main: how many commits lead to it, its fact files, and the requests that
      the messages of those commits name. */
  datatype Repo = Repo(version: nat, files: map<string, File>, markers: set<string>)

  /** A commit made here: the facts it retires, what replaces them, and the request its message names. */
  datatype Change = Change(request: Option<string>, facts: set<string>, replacement: Option<string>, content: string)

  /** at is the commit of the remote below everything unpushed, torn the uncommitted files of the working tree, and
      origin what the last fetch saw. */
  datatype Clone = Clone(at: Repo, unpushed: seq<Change>, torn: map<string, File>, origin: Repo) {
    function Head(): Repo {
      Replayed(at, unpushed)
    }

    /** A file as it is read from the working tree. */
    function Seen(fact: string): Option<File> {
      if fact in torn then Some(torn[fact]) else FileIn(Head(), fact)
    }
  }

  /** commits lists the requests of all commits that reached the remote, restored the requests whose fact was put
      back, by somebody else, to the very file they had replaced, and stranded those whose apply ended between its
      commit and the push of it, until a later push takes that commit along, and unheard those of a push that their
      own apply did not hear of, or did not live to store. */
  datatype Git = Git(
    clone: Clone, remote: Repo, commits: seq<string>, restored: set<string>, stranded: set<string>, unheard: set<string>)

  function FileIn(repo: Repo, fact: string): Option<File> {
    if fact in repo.files then Some(repo.files[fact]) else None
  }

  // ---- commits ----------------------------------------------------------------------------

  function Retired(file: File, newer: Option<string>): File {
    file.(active := false, supersededBy := if newer.Some? then newer else file.supersededBy)
  }

  predicate Fits(repo: Repo, c: Change) {
    c.facts <= repo.files.Keys && (c.replacement.Some? ==> c.replacement.value !in repo.files)
  }

  function Committed(repo: Repo, c: Change): Repo {
    var files := map f <- repo.files :: if f in c.facts then Retired(repo.files[f], c.replacement) else repo.files[f];
    Repo(repo.version + 1,
         if c.replacement.Some? then files[c.replacement.value := File(c.content, true, None)] else files,
         if c.request.Some? then repo.markers + {c.request.value} else repo.markers)
  }

  function Replayed(repo: Repo, changes: seq<Change>): Repo {
    if changes == [] then repo else Committed(Replayed(repo, changes[..|changes| - 1]), changes[|changes| - 1])
  }

  /** Each change finds the facts it retires, and its replacement is new. */
  predicate AllFit(repo: Repo, changes: seq<Change>) {
    changes == [] || (AllFit(repo, changes[..|changes| - 1])
                      && Fits(Replayed(repo, changes[..|changes| - 1]), changes[|changes| - 1]))
  }

  /** The requests the changes are made for. */
  function Named(changes: seq<Change>): seq<string> {
    if changes == [] then []
    else
      var before, last := Named(changes[..|changes| - 1]), changes[|changes| - 1];
      if last.request.Some? then before + [last.request.value] else before
  }

  ghost predicate Retires(changes: seq<Change>, fact: string) {
    exists c <- changes :: fact in c.facts
  }

  ghost predicate Makes(changes: seq<Change>, fact: string) {
    exists c <- changes :: c.replacement == Some(fact)
  }

  lemma OneMore(changes: seq<Change>, c: Change)
    ensures (changes + [c])[..|changes|] == changes
    ensures forall x :: x in changes + [c] <==> x in changes || x == c
  {
  }

  lemma ReplayedMore(repo: Repo, changes: seq<Change>, c: Change)
    ensures Replayed(repo, changes + [c]) == Committed(Replayed(repo, changes), c)
    ensures AllFit(repo, changes + [c]) <==> AllFit(repo, changes) && Fits(Replayed(repo, changes), c)
    ensures Named(changes + [c]) == Named(changes) + if c.request.Some? then [c.request.value] else []
  {
    OneMore(changes, c);
  }

  /** A retired fact stays, inactive, and a fact that is neither retired nor new is as it was. */
  lemma {:induction false} ReplayedFile(repo: Repo, changes: seq<Change>, fact: string)
    requires AllFit(repo, changes)
    ensures var head := Replayed(repo, changes);
            && (Retires(changes, fact) ==> fact in head.files && !head.files[fact].active)
            && (!Retires(changes, fact) && !Makes(changes, fact) ==> FileIn(head, fact) == FileIn(repo, fact))
  {
    if changes != [] {
      hide Committed, Fits, Retires, Makes;
      var n := |changes| - 1;
      ReplayedFile(repo, changes[..n], fact);
      CommittedFile(Replayed(repo, changes[..n]), changes[n], fact);
      RetiresMore(changes, n, fact);
    }
  }

  lemma CommittedFile(repo: Repo, c: Change, fact: string)
    requires Fits(repo, c)
    ensures var after := Committed(repo, c);
            && (fact in repo.files && (fact in c.facts || !repo.files[fact].active) ==> fact in after.files && !after.files[fact].active)
            && (fact in c.facts ==> fact in repo.files)
            && (fact !in c.facts && c.replacement != Some(fact) ==> FileIn(after, fact) == FileIn(repo, fact))
  {
  }

  lemma RetiresMore(changes: seq<Change>, n: nat, fact: string)
    requires |changes| == n + 1
    ensures Retires(changes, fact) <==> Retires(changes[..n], fact) || fact in changes[n].facts
    ensures Makes(changes, fact) <==> Makes(changes[..n], fact) || changes[n].replacement == Some(fact)
  {
    assert changes == changes[..n] + [changes[n]];
    OneMore(changes[..n], changes[n]);
  }

  lemma {:induction false} ReplayedMarkers(repo: Repo, changes: seq<Change>)
    ensures Replayed(repo, changes).markers == repo.markers + Elements(Named(changes))
  {
    if changes != [] {
      ReplayedMarkers(repo, changes[..|changes| - 1]);
    }
  }

  lemma {:induction false} NamedIsRequested(changes: seq<Change>, id: string)
    ensures id in Named(changes) <==> exists c <- changes :: c.request == Some(id)
  {
    if changes != [] {
      var n := |changes| - 1;
      NamedIsRequested(changes[..n], id);
      assert changes == changes[..n] + [changes[n]];
      OneMore(changes[..n], changes[n]);
    }
  }

  // ---- fetch, rebase, push, reset ---------------------------------------------------------

  /** Moving on to the remote would not overwrite an uncommitted file. */
  predicate TornUntouched(c: Clone, remote: Repo) {
    forall f <- c.torn :: FileIn(c.at, f) == FileIn(remote, f)
  }

  /** A write may begin: the clone could be brought up to the remote, or both have commits of their own. Commits of
      the clone on top of an unmoved remote look like a rewritten history. */
  predicate MayWrite(c: Clone, remote: Repo) {
    if c.unpushed == [] then TornUntouched(c, remote) else c.at != remote
  }

  function Fetched(c: Clone, remote: Repo): Clone {
    c.(origin := remote, at := if c.unpushed == [] && TornUntouched(c, remote) then remote else c.at)
  }

  /** reset --hard origin/main */
  function Reset(c: Clone): Clone {
    Clone(c.origin, [], map[], c.origin)
  }

  predicate Rebases(g: Git, clean: bool) {
    clean && g.clone.torn == map[] && AllFit(g.remote, g.clone.unpushed)
  }

  /** Fetch and rebase; a conflict gives up everything unpushed. */
  function Rebased(g: Git, clean: bool): Git {
    g.(clone := Clone(g.remote, if Rebases(g, clean) then g.clone.unpushed else [], map[], g.remote))
  }

  /** A push that lands takes everything unpushed along; origin follows only if the client hears of it, and only the
      apply that drives it hears of its own request. */
  function Landed(g: Git, heard: bool, driver: Option<string>): Git {
    var head, names := g.clone.Head(), Elements(Named(g.clone.unpushed));
    g.(clone := Clone(head, [], g.clone.torn, if heard then head else g.clone.origin), remote := head,
       commits := g.commits + Named(g.clone.unpushed), stranded := g.stranded - names,
       unheard := g.unheard + names - if heard && driver.Some? then {driver.value} else {})
  }

  /** Somebody else pushes an edit of one file. */
  ghost function Edited(g: Git, fact: string, file: Option<File>, back: set<string>): Git {
    var files := if file.Some? then g.remote.files[fact := file.value] else g.remote.files - {fact};
    g.(remote := Repo(g.remote.version + 1, files, g.remote.markers), restored := g.restored + back)
  }

  // ---- the clone as the server drives it --------------------------------------------------

  /** One round of the push loop, as the network decides it: whether a push the remote can take lands and is heard of,
      and, if not heard of, whether the fetch works and the rebase is clean. */
  datatype Try = Try(lands: bool, heard: bool, fetches: bool, clean: bool)

  const PUSHES: nat := 3

  /** The push loop of the apply of id from round n on, and whether it succeeds; a failing one drops everything unpushed. */
  function Pushed(g: Git, id: string, tries: nat -> Try, n: nat): (Git, bool)
    decreases PUSHES - n
  {
    if n >= PUSHES then (g.(clone := Reset(g.clone)), false)
    else
      var t := tries(n);
      var lands := t.lands && g.clone.at == g.remote;
      var h := if lands then Landed(g, t.heard, Some(id)) else g;
      if lands && t.heard then (h, true)
      else if !t.fetches then (h.(clone := Reset(h.clone)), false)
      else if Rebases(h, t.clean) then Pushed(Rebased(h, t.clean), id, tries, n + 1)
      else (Rebased(h, t.clean), false)
  }

  /** No uncommitted file differs, or is there or not, between the commit of the clone and the remote. */
  ghost predicate KeepsTorn(c: Clone, remote: Repo) {
    forall f <- c.torn ::
      && (f in c.at.files <==> f in remote.files)
      && (f in c.at.files ==> c.at.files[f] == remote.files[f])
  }

  /** What is read is the working tree: a file just written, else one written before, else the one last committed; a reset
      puts back what the last fetch saw. */
  lemma TreeIsSeen(c: Clone, fact: string, file: File, other: string)
    ensures c.(torn := c.torn[fact := file]).Seen(other) == if other == fact then Some(file) else c.Seen(other)
    ensures other !in c.torn && other in c.Head().files ==> c.Seen(other) == Some(c.Head().files[other])
    ensures other !in c.torn && other !in c.Head().files ==> c.Seen(other) == None
    ensures Reset(c).Seen(other) == if other in c.origin.files then Some(c.origin.files[other]) else None
  {
    hide Committed;
  }

  class GitStore {
    var clone: Clone
    var remote: Repo
    ghost var commits: seq<string>
    ghost var restored: set<string>
    ghost var stranded: set<string>
    ghost var unheard: set<string>

    constructor (repo: Repo)
      ensures State() == Git(Clone(repo, [], map[], repo), repo, [], {}, {}, {})
    {
      clone, remote, commits := Clone(repo, [], map[], repo), repo, [];
      restored, stranded, unheard := {}, {}, {};
    }

    ghost function State(): Git
      reads this
    {
      Git(clone, remote, commits, restored, stranded, unheard)
    }

    /** False if the clone cannot follow the remote. */
    method FetchAndFf() returns (ok: bool)
      modifies this`clone
      ensures ok == MayWrite(old(clone), remote) && clone == Fetched(old(clone), remote)
      ensures var was := old(clone);
              && clone == was.(origin := remote, at := clone.at)
              && (ok <==> if was.unpushed == [] then KeepsTorn(was, remote) else was.at != remote)
              && clone.at == if was.unpushed == [] && ok then remote else was.at
    {
      clone := clone.(origin := remote);
      if clone.unpushed == [] {
        if !TornUntouched(clone, remote) {
          return false;
        }
        clone := clone.(at := remote);
        return true;
      }
      return clone.at != remote;
    }

    method ResetHard()
      modifies this`clone
      ensures clone == Reset(old(clone))
    {
      clone := clone.(at := clone.origin, unpushed := [], torn := map[]);
    }

    /** Writes a file of the working tree. */
    method Write(fact: string, file: File)
      modifies this`clone
      ensures clone == old(clone).(torn := old(clone).torn[fact := file])
    {
      clone := clone.(torn := clone.torn[fact := file]);
    }

    method Commit(c: Change)
      modifies this`clone
      ensures clone == old(clone).(unpushed := old(clone).unpushed + [c], torn := old(clone).torn - c.facts)
    {
      clone := clone.(unpushed := clone.unpushed + [c], torn := clone.torn - c.facts);
    }

    /** True if the push is heard of. */
    method Push(t: Try, ghost id: string) returns (ok: bool)
      modifies this`clone, this`remote, this`commits, this`stranded, this`unheard
      ensures var lands := t.lands && old(clone).at == old(remote);
              ok == (lands && t.heard) && State() == if lands then Landed(old(State()), t.heard, Some(id)) else old(State())
    {
      if !t.lands || clone.at != remote {
        return false;
      }
      var head := clone.Head();
      ghost var names := Elements(Named(clone.unpushed));
      stranded, unheard := stranded - names, unheard + names - if t.heard then {id} else {};
      commits := commits + Named(clone.unpushed);
      clone := Clone(head, [], clone.torn, if t.heard then head else clone.origin);
      remote := head;
      return t.heard;
    }

    method FetchAndRebase(clean: bool) returns (ok: bool)
      modifies this`clone
      ensures ok == Rebases(old(State()), clean) && State() == Rebased(old(State()), clean)
    {
      clone := clone.(origin := remote);
      if !clean || clone.torn != map[] || !AllFit(remote, clone.unpushed) {
        ResetHard();
        return false;
      }
      clone := clone.(at := remote);
      return true;
    }

    /** Pushes, and fetches and rebases between the attempts; whenever it gives up, nothing unpushed is left. */
    method PushLoop(tries: nat -> Try, ghost id: string) returns (ok: bool)
      modifies this
      ensures (State(), ok) == Pushed(old(State()), id, tries, 0)
      ensures !ok ==> clone == Reset(clone)
    {
      hide Landed, Rebases, Rebased;
      ghost var all := Pushed(State(), id, tries, 0);
      for n := 0 to PUSHES
        invariant all == Pushed(State(), id, tries, n)
      {
        var t := tries(n);
        ok := Push(t, id);
        if ok {
          return;
        }
        if !t.fetches {
          ResetHard();
          return false;
        }
        ok := FetchAndRebase(t.clean);
        if !ok {
          RefusedRebase();
          return;
        }
      }
      ResetHard();
      return false;
    }
  }

  /** On a remote nobody else moves, with a network that answers, the loop succeeds if and only if one of three pushes
      lands. */
  lemma ThreePushes(g: Git, id: string, tries: nat -> Try)
    requires g.clone.at == g.remote && g.clone.torn == map[] && AllFit(g.remote, g.clone.unpushed)
    requires forall n :: tries(n).heard && tries(n).fetches && tries(n).clean
    ensures Pushed(g, id, tries, 0).1 <==> tries(0).lands || tries(1).lands || tries(2).lands
  {
    hide Landed, AllFit;
    var once := Rebased(g, true);
    var twice := Rebased(once, true);
    assert tries(0).lands ==> Pushed(g, id, tries, 0).1;
    assert !tries(0).lands ==> Pushed(g, id, tries, 0) == Pushed(once, id, tries, 1);
    assert !tries(1).lands ==> Pushed(once, id, tries, 1) == Pushed(twice, id, tries, 2);
    assert !tries(2).lands ==> Pushed(twice, id, tries, 2) == Pushed(Rebased(twice, true), id, tries, 3);
  }

  lemma RefusedRebase()
    ensures forall g, clean :: !Rebases(g, clean) ==> Rebased(g, clean).clone == Reset(Rebased(g, clean).clone)
  {
  }
}
