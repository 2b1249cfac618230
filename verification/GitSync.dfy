/** The level-triggered index over a Git repository: a ledger of what is indexed, brought up to HEAD by a diff. */
module GitSync {
  import opened Domain
  import opened Ordering

  type Path = string

  /** A file as the engine reads it: its front matter does not parse, holds no id, holds an id that is no text, or
      is a fact. */
  datatype File = Unreadable | Plain | BadId | Fact(id: string, hash: string, active: bool)

  /** The files below the knowledge directory at one commit, as far as the engine reads them: an edit it does not
      read, of a plain file or of a field outside the semantic hash, leaves the file as it is here. */
  type Tree = map<Path, File>

  /** A commit is compared by its id, and the id is a hash: commits with one id have one tree. */
  datatype Commit = Commit(id: string, tree: Tree)

  datatype Entry = Renamed(from: Path, to: Path) | Removed(path: Path) | Touched(path: Path)

  /** What is persisted between syncs. Every ledger entry lists at least one graph ref; only its hash is modelled. */
  datatype State = State(last: Option<Commit>, facts: map<string, string>, dead: set<Path>)

  const NEW := State(None, map[], {})

  /** The ids whose graph entry cannot be deleted and the paths whose upsert fails, this time. */
  datatype Faults = Faults(deletes: set<string>, upserts: set<Path>)

  datatype Report = Report(upserted: nat, deleted: nat, dead: set<Path>)

  function FileName(p: Path): string {
    if p == "" then "" else if p[|p| - 1] == '/' then "" else FileName(p[..|p| - 1]) + [p[|p| - 1]]
  }

  /** The files a full listing considers: Markdown files other than the two reserved names. */
  predicate Listed(p: Path) {
    |p| >= 3 && p[|p| - 3..] == ".md" && FileName(p) != "CONVENTIONS.md" && FileName(p) != "README.md"
  }

  function IdAt(c: Tree, p: Path): Option<string> {
    if p in c && c[p].Fact? then Some(c[p].id) else None
  }

  // ---- git diff ---------------------------------------------------------------------------

  predicate EntryFits(a: Tree, b: Tree, e: Entry) {
    match e
    case Renamed(from, to) => from in a && from !in b && to in b && to !in a
    case Removed(p) => p in a && p !in b
    case Touched(p) => p in b
  }

  ghost predicate Arrives(entries: seq<Entry>, p: Path) {
    exists e <- entries :: (e.Touched? && e.path == p) || (e.Renamed? && e.to == p)
  }

  ghost predicate Leaves(entries: seq<Entry>, p: Path) {
    exists e <- entries :: (e.Removed? && e.path == p) || (e.Renamed? && e.from == p)
  }

  /** What git diff --name-status --find-renames reports between a and b: every difference is listed, and so may be
      files that only differ in what the engine does not read. */
  ghost predicate IsDiff(a: Tree, b: Tree, entries: seq<Entry>) {
    && (forall e <- entries :: EntryFits(a, b, e))
    && (forall p <- b :: !(p in a && a[p] == b[p]) ==> Arrives(entries, p))
    && (forall p <- a :: p !in b ==> Leaves(entries, p))
  }

  // ---- one sync ---------------------------------------------------------------------------

  /** The ledger after the departures of the diff and the paths to look at; None if a delete fails. */
  datatype Departed = Aborted | Departed(facts: map<string, string>, targets: set<Path>, deleted: nat)

  function Depart(a: Tree, entries: seq<Entry>, facts: map<string, string>, faults: Faults): Departed {
    if entries == [] then Departed(facts, {}, 0)
    else
      match Depart(a, entries[..|entries| - 1], facts, faults)
      case Aborted => Aborted
      case Departed(facts, targets, deleted) =>
        match entries[|entries| - 1]
        case Touched(p) => Departed(facts, targets + {p}, deleted)
        case Removed(p) =>
          var id := IdAt(a, p);
          if id.None? || id.value !in facts then Departed(facts, targets, deleted)
          else if id.value in faults.deletes then Aborted
          else Departed(facts - {id.value}, targets, deleted + 1)
        case Renamed(from, to) =>
          var id := IdAt(a, from);
          if id.None? || id.value !in facts then Departed(facts, targets + {to}, deleted)
          else if id.value in faults.deletes then Aborted
          else Departed(facts - {id.value}, targets + {to}, deleted)
  }

  datatype Ledger = Ledger(facts: map<string, string>, dead: set<Path>, upserted: nat)

  /** Looks at one path of the head. */
  function Ingest(b: Tree, l: Ledger, p: Path, faults: Faults): Ledger {
    if p !in b then l.(dead := l.dead - {p})
    else
      match b[p]
      case Unreadable => l.(dead := l.dead + {p})
      case Plain => l.(dead := l.dead - {p})
      case BadId => l.(dead := l.dead + {p})
      case Fact(id, hash, active) =>
        if p in faults.upserts then l.(dead := l.dead + {p})
        else Ledger(if active then l.facts[id := hash] else l.facts - {id}, l.dead - {p}, l.upserted + 1)
  }

  function IngestAll(b: Tree, l: Ledger, paths: seq<Path>, faults: Faults): Ledger {
    if paths == [] then l else Ingest(b, IngestAll(b, l, paths[..|paths| - 1], faults), paths[|paths| - 1], faults)
  }

  function ListedPaths(c: Tree): set<Path> {
    set p <- c | Listed(p)
  }

  /** Where the sync starts from: everything that is listed, or the diff since the last commit. */
  function Start(s: State, head: Commit, entries: seq<Entry>, faults: Faults): Departed {
    match s.last
    case None =>
      if exists p <- ListedPaths(head.tree) :: head.tree[p].Unreadable? then Aborted
      else Departed(s.facts, ListedPaths(head.tree), 0)
    case Some(a) => if a == head then Departed(s.facts, {}, 0) else Depart(a.tree, entries, s.facts, faults)
  }

  /** One sync to head. An aborted sync saves nothing. */
  ghost function Synced(s: State, head: Commit, entries: seq<Entry>, faults: Faults): (State, Option<Report>) {
    match Start(s, head, entries, faults)
    case Aborted => (s, None)
    case Departed(facts, targets, deleted) =>
      var l := IngestAll(head.tree, Ledger(facts, s.dead, 0), Sorted(targets + s.dead), faults);
      (State(Some(head), l.facts, l.dead), Some(Report(l.upserted, deleted, l.dead)))
  }

  // ---- what a ledger should hold ----------------------------------------------------------

  ghost predicate HasId(c: Tree, id: string) {
    exists p <- c :: IdAt(c, p) == Some(id)
  }

  /** The ledger has the content of this file, or nothing if the fact is invalidated. */
  predicate Right(facts: map<string, string>, file: File)
    requires file.Fact?
  {
    if file.active then file.id in facts && facts[file.id] == file.hash else file.id !in facts
  }

  /** Every file parses, no id is used twice, and facts live in listed files. */
  ghost predicate Sound(c: Tree) {
    Parses(c) && UniqueIds(c) && forall p <- c :: c[p].Fact? ==> Listed(p)
  }

  ghost predicate Parses(c: Tree) {
    forall p <- c :: c[p].Fact? || c[p].Plain?
  }

  ghost predicate UniqueIds(c: Tree) {
    forall p <- c, q <- c :: c[p].Fact? && c[q].Fact? && c[p].id == c[q].id ==> p == q
  }

  /** An id may leave a file that stays only by moving to another one. */
  ghost predicate Follows(a: Tree, b: Tree) {
    forall p <- a :: p in b && a[p].Fact? ==> HasId(b, a[p].id)
  }

  /** Every fact of the head is dead-lettered or right, and the ledger holds nothing else. */
  ghost predicate Current(s: State) {
    match s.last
    case None => s == NEW
    case Some(head) => Settling(head.tree, s.facts, s.dead, {})
  }

  /** Current, but for the paths still to be looked at. */
  ghost predicate Settling(b: Tree, facts: map<string, string>, dead: set<Path>, todo: set<Path>) {
    && (forall p <- b :: b[p].Fact? ==> p in todo || p in dead || Right(facts, b[p]))
    && (forall id <- facts :: HasId(b, id))
    && (forall p <- dead :: p in todo || (p in b && b[p].Fact?))
  }

  /** The ledger of a full rebuild that meets no fault. */
  ghost predicate IsLedgerOf(c: Tree, facts: map<string, string>) {
    && (forall p <- c :: Listed(p) && c[p].Fact? && c[p].active ==> c[p].id in facts && facts[c[p].id] == c[p].hash)
    && (forall id <- facts :: exists p <- c :: Listed(p) && c[p].Fact? && c[p].active && c[p].id == id)
  }

  lemma LedgerIsUnique(c: Tree, f: map<string, string>, g: map<string, string>)
    requires IsLedgerOf(c, f) && IsLedgerOf(c, g)
    ensures f == g
  {
    forall id <- f ensures id in g && g[id] == f[id] {
      var p :| p in c && Listed(p) && c[p].Fact? && c[p].active && c[p].id == id;
    }
    forall id <- g ensures id in f {
      var p :| p in c && Listed(p) && c[p].Fact? && c[p].active && c[p].id == id;
    }
  }

  // ---- departures -------------------------------------------------------------------------

  ghost predicate LeftBehind(a: Tree, entries: seq<Entry>, id: string) {
    exists p :: Leaves(entries, p) && IdAt(a, p) == Some(id)
  }

  lemma LeavesMore(entries: seq<Entry>, e: Entry, p: Path)
    ensures Leaves(entries + [e], p) <==> Leaves(entries, p) || (e.Removed? && e.path == p) || (e.Renamed? && e.from == p)
    ensures Arrives(entries + [e], p) <==> Arrives(entries, p) || (e.Touched? && e.path == p) || (e.Renamed? && e.to == p)
  {
    assert forall x :: x in entries + [e] <==> x in entries || x == e;
  }

  /** A diff takes exactly the ids of the departed files off the ledger and looks at exactly the arrived ones. */
  lemma {:induction false} DepartExactly(a: Tree, entries: seq<Entry>, facts: map<string, string>, faults: Faults)
    ensures match Depart(a, entries, facts, faults)
            case Aborted => exists id :: LeftBehind(a, entries, id) && id in facts && id in faults.deletes
            case Departed(left, targets, deleted) =>
              && (forall p :: p in targets <==> Arrives(entries, p))
              && (forall id :: id in left <==> id in facts && !LeftBehind(a, entries, id))
              && (forall id <- left :: left[id] == facts[id])
              && (forall id <- facts :: LeftBehind(a, entries, id) ==> id !in faults.deletes)
  {
    if entries != [] {
      var n := |entries| - 1;
      var e := entries[n];
      DepartExactly(a, entries[..n], facts, faults);
      assert entries == entries[..n] + [e];
      forall p ensures Arrives(entries, p) <==> Arrives(entries[..n], p) || (e.Touched? && e.path == p) || (e.Renamed? && e.to == p) {
        LeavesMore(entries[..n], e, p);
      }
      hide Leaves, Arrives, IdAt;
      LeftBehindMore(a, entries, n);
      hide LeftBehind;
    }
  }

  ghost function Departing(e: Entry): Option<Path> {
    match e
    case Removed(p) => Some(p)
    case Renamed(p, _) => Some(p)
    case Touched(_) => None
  }

  lemma LeftBehindMore(a: Tree, entries: seq<Entry>, n: nat)
    requires |entries| == n + 1
    ensures forall id :: LeftBehind(a, entries, id) <==>
              LeftBehind(a, entries[..n], id) || (Departing(entries[n]).Some? && IdAt(a, Departing(entries[n]).value) == Some(id))
  {
    var e := entries[n];
    assert entries == entries[..n] + [e];
    forall p ensures Leaves(entries, p) <==> Leaves(entries[..n], p) || Departing(e) == Some(p) {
      LeavesMore(entries[..n], e, p);
    }
    hide Leaves, IdAt;
    forall id ensures LeftBehind(a, entries, id) <==> LeftBehind(a, entries[..n], id) || (Departing(e).Some? && IdAt(a, Departing(e).value) == Some(id)) {
      if LeftBehind(a, entries[..n], id) {
        var p :| Leaves(entries[..n], p) && IdAt(a, p) == Some(id);
        assert Leaves(entries, p);
      }
      if LeftBehind(a, entries, id) {
        var p :| Leaves(entries, p) && IdAt(a, p) == Some(id);
      }
      if Departing(e).Some? && IdAt(a, Departing(e).value) == Some(id) {
        assert Leaves(entries, Departing(e).value);
      }
    }
  }

  // ---- arrivals ---------------------------------------------------------------------------

  lemma IngestSettles(b: Tree, l: Ledger, p: Path, faults: Faults, todo: set<Path>)
    requires Parses(b) && UniqueIds(b) && Settling(b, l.facts, l.dead, todo)
    ensures var m := Ingest(b, l, p, faults);
            Settling(b, m.facts, m.dead, todo - {p}) && (forall x <- m.dead :: x in l.dead || x in faults.upserts)
  {
    if p in b && b[p].Fact? {
      assert IdAt(b, p) == Some(b[p].id);
      assert HasId(b, b[p].id);
    }
    hide HasId;
  }

  lemma {:induction false} IngestAllSettles(b: Tree, l: Ledger, paths: seq<Path>, faults: Faults, todo: set<Path>)
    requires Parses(b) && UniqueIds(b) && Settling(b, l.facts, l.dead, todo)
    ensures var m := IngestAll(b, l, paths, faults);
            && Settling(b, m.facts, m.dead, todo - Elements(paths))
            && (forall p <- m.dead :: p in l.dead || p in faults.upserts)
    decreases |paths|
  {
    hide Parses, UniqueIds, Settling, Ingest;
    if paths == [] {
      assert todo - Elements(paths) == todo;
    } else {
      var n := |paths| - 1;
      IngestAllSettles(b, l, paths[..n], faults, todo);
      IngestSettles(b, IngestAll(b, l, paths[..n], faults), paths[n], faults, todo - Elements(paths[..n]));
      assert paths == paths[..n] + [paths[n]];
      assert todo - Elements(paths[..n]) - {paths[n]} == todo - Elements(paths);
    }
  }

  /** left is what the departures of the diff from a leave of facts. */
  ghost predicate IsLeft(a: Tree, entries: seq<Entry>, facts: map<string, string>, left: map<string, string>) {
    && (forall id :: id in left <==> id in facts && !LeftBehind(a, entries, id))
    && (forall id <- left :: left[id] == facts[id])
  }

  lemma UnchangedStaysRight(a: Tree, b: Tree, entries: seq<Entry>, facts: map<string, string>, left: map<string, string>, p: Path)
    requires UniqueIds(a) && (forall e <- entries :: EntryFits(a, b, e)) && IsLeft(a, entries, facts, left)
    requires p in a && p in b && a[p] == b[p] && b[p].Fact? && Right(facts, a[p])
    ensures Right(left, b[p])
  {
  }

  lemma StaysKnown(a: Tree, b: Tree, entries: seq<Entry>, facts: map<string, string>, left: map<string, string>, id: string)
    requires Follows(a, b) && IsLeft(a, entries, facts, left) && id in left && HasId(a, id)
    requires forall p <- a :: p !in b ==> Leaves(entries, p)
    ensures HasId(b, id)
  {
    var p :| p in a && IdAt(a, p) == Some(id);
    assert p !in b ==> LeftBehind(a, entries, id);
  }

  lemma DiffSettles(a: Tree, b: Tree, entries: seq<Entry>, s: State, left: map<string, string>, targets: set<Path>)
    requires Sound(a) && Sound(b) && Follows(a, b) && IsDiff(a, b, entries)
    requires Settling(a, s.facts, s.dead, {})
    requires (forall p :: p in targets <==> Arrives(entries, p)) && IsLeft(a, entries, s.facts, left)
    ensures Settling(b, left, s.dead, targets + s.dead)
  {
    hide EntryFits, Arrives, Leaves, HasId, Follows, Right, UniqueIds, Parses;
    forall p <- b | b[p].Fact? && p !in targets && p !in s.dead ensures Right(left, b[p]) {
      assert !Arrives(entries, p);
      UnchangedStaysRight(a, b, entries, s.facts, left, p);
    }
    forall id <- left ensures HasId(b, id) {
      StaysKnown(a, b, entries, s.facts, left, id);
    }
  }

  lemma ListedSettles(b: Tree)
    requires Sound(b)
    ensures Settling(b, map[], {}, ListedPaths(b))
  {
  }

  lemma SameSettles(b: Tree, s: State)
    requires Settling(b, s.facts, s.dead, {})
    ensures Settling(b, s.facts, s.dead, s.dead)
  {
  }

  lemma NoneLeft(b: Tree, facts: map<string, string>, dead: set<Path>, todo: set<Path>, q: seq<Path>)
    requires Settling(b, facts, dead, todo - Elements(q)) && Elements(q) == todo
    ensures Settling(b, facts, dead, {})
  {
    assert todo - Elements(q) == {};
  }

  /** Every sync keeps the ledger right or dead-lettered, whatever fails; a sync without faults at the paths it
      looks at leaves no dead letter that was not there. */
  lemma SyncKeepsCurrent(s: State, head: Commit, entries: seq<Entry>, faults: Faults)
    requires Current(s) && Sound(head.tree)
    requires s.last.Some? ==>
               Sound(s.last.value.tree) && Follows(s.last.value.tree, head.tree) && IsDiff(s.last.value.tree, head.tree, entries)
    ensures Current(Synced(s, head, entries, faults).0)
    ensures faults == Faults({}, {}) ==> Synced(s, head, entries, faults).1.Some?
  {
    hide Parses, UniqueIds, IsDiff, Follows, Settling;
    match Start(s, head, entries, faults)
    case Aborted =>
      if s.last.Some? {
        DepartExactly(s.last.value.tree, entries, s.facts, faults);
      } else {
        ParsesMeansReadable(head.tree);
      }
    case Departed(facts, targets, deleted) =>
      match s.last {
        case None => ListedSettles(head.tree);
                     assert targets + s.dead == ListedPaths(head.tree);
        case Some(a) =>
          if a == head {
            SameSettles(head.tree, s);
            assert targets + s.dead == s.dead;
          } else {
            DepartExactly(a.tree, entries, s.facts, faults);
            DiffSettles(a.tree, head.tree, entries, s, facts, targets);
          }
      }
      var todo := targets + s.dead;
      IngestAllSettles(head.tree, Ledger(facts, s.dead, 0), Sorted(todo), faults, todo);
      var l := IngestAll(head.tree, Ledger(facts, s.dead, 0), Sorted(todo), faults);
      NoneLeft(head.tree, l.facts, l.dead, todo, Sorted(todo));
  }

  lemma ParsesMeansReadable(c: Tree)
    requires Parses(c)
    ensures !exists p <- ListedPaths(c) :: c[p].Unreadable?
  {
  }

  // ---- runs -------------------------------------------------------------------------------

  datatype Run = Sync(head: Commit, entries: seq<Entry>, faults: Faults) | Skipped | Reindex(head: Commit, cleared: bool, reached: bool, faults: Faults)

  /** A sync that finds the graph not ready or history rewritten is skipped; a reindex can fail before it clears
      the state, or after, before its sync. */
  ghost function Ran(s: State, r: Run): State {
    match r
    case Sync(head, entries, faults) => Synced(s, head, entries, faults).0
    case Skipped => s
    case Reindex(head, cleared, reached, faults) =>
      if !cleared then s else if !reached then NEW else Synced(NEW, head, [], faults).0
  }

  ghost function RanAll(runs: seq<Run>): State {
    if runs == [] then NEW else Ran(RanAll(runs[..|runs| - 1]), runs[|runs| - 1])
  }

  /** The head of a run is a sound commit that follows the one synced last, and its diff is from there. */
  ghost predicate Faithful(s: State, r: Run) {
    match r
    case Sync(head, entries, _) =>
      Sound(head.tree) && (s.last.Some? ==> Follows(s.last.value.tree, head.tree) && IsDiff(s.last.value.tree, head.tree, entries))
    case Skipped => true
    case Reindex(head, _, _, _) => Sound(head.tree)
  }

  ghost predicate AllFaithful(runs: seq<Run>) {
    forall n :: 0 <= n < |runs| ==> Faithful(RanAll(runs[..n]), runs[n])
  }

  lemma {:induction false} RunsKeepCurrent(runs: seq<Run>)
    requires AllFaithful(runs)
    ensures Current(RanAll(runs)) && (RanAll(runs).last.Some? ==> Sound(RanAll(runs).last.value.tree))
  {
    hide Sound, Follows, IsDiff, Synced, Settling;
    if runs != [] {
      var n := |runs| - 1;
      FaithfulPrefix(runs);
      RunsKeepCurrent(runs[..n]);
      assert Faithful(RanAll(runs[..n]), runs[n]);
      SyncedLast(RanAll(runs[..n]), runs[n]);
      match runs[n]
      case Sync(head, entries, faults) => SyncKeepsCurrent(RanAll(runs[..n]), head, entries, faults);
      case Skipped =>
      case Reindex(head, cleared, reached, faults) => SyncKeepsCurrent(NEW, head, [], faults);
    }
  }

  lemma FaithfulPrefix(runs: seq<Run>)
    requires AllFaithful(runs) && runs != []
    ensures AllFaithful(runs[..|runs| - 1])
  {
    var n := |runs| - 1;
    forall i | 0 <= i < n ensures Faithful(RanAll(runs[..n][..i]), runs[..n][i]) {
      assert runs[..n][..i] == runs[..i];
    }
  }

  lemma SyncedLast(s: State, r: Run)
    ensures Ran(s, r).last == s.last || Ran(s, r).last == None || (!r.Skipped? && Ran(s, r).last == Some(r.head))
  {
    hide Start, IngestAll;
  }

  /** After any runs, with any faults, every fact file of the head is dead-lettered or its ledger entry is right,
      no ledger id lacks a file at the head, and only facts of the head are dead-lettered. */
  lemma LedgerFollowsHead(runs: seq<Run>)
    requires AllFaithful(runs) && RanAll(runs).last.Some?
    ensures var s := RanAll(runs);
            var head := s.last.value.tree;
            && (forall p <- head :: head[p].Fact? ==> p in s.dead || Right(s.facts, head[p]))
            && (forall id <- s.facts :: HasId(head, id))
            && (forall p <- s.dead :: p in head && head[p].Fact?)
  {
    RunsKeepCurrent(runs);
    hide Sound, RanAll, AllFaithful;
  }

  /** Once no dead letter is left, the ledger is the one a rebuild at this head ends with. */
  lemma IncrementalIsRebuild(runs: seq<Run>)
    requires AllFaithful(runs) && RanAll(runs).last.Some? && RanAll(runs).dead == {}
    ensures RanAll(runs) == Ran(RanAll(runs), Reindex(RanAll(runs).last.value, true, true, Faults({}, {})))
  {
    var s := RanAll(runs);
    var head := s.last.value;
    RunsKeepCurrent(runs);
    SyncKeepsCurrent(NEW, head, [], Faults({}, {}));
    var u := Synced(NEW, head, [], Faults({}, {})).0;
    RebuildIsClean(head);
    SettledIsLedger(head.tree, s.facts);
    SettledIsLedger(head.tree, u.facts);
    LedgerIsUnique(head.tree, s.facts, u.facts);
  }

  lemma RebuildIsClean(head: Commit)
    requires Sound(head.tree)
    ensures var u := Synced(NEW, head, [], Faults({}, {})).0; u.last == Some(head) && u.dead == {}
  {
    ListedSettles(head.tree);
    ParsesMeansReadable(head.tree);
    hide Parses, UniqueIds, Settling;
    var listed := ListedPaths(head.tree);
    assert listed + {} == listed;
    IngestAllSettles(head.tree, Ledger(map[], {}, 0), Sorted(listed), Faults({}, {}), listed);
  }

  lemma SettledIsLedger(head: Tree, facts: map<string, string>)
    requires Sound(head) && Settling(head, facts, {}, {})
    ensures IsLedgerOf(head, facts)
  {
    forall id <- facts ensures exists p <- head :: Listed(p) && head[p].Fact? && head[p].active && head[p].id == id {
      assert HasId(head, id);
      var p :| p in head && IdAt(head, p) == Some(id);
      assert Right(facts, head[p]);
    }
  }

  // ---- exactness of one sync --------------------------------------------------------------

  const NO_FAULTS := Faults({}, {})

  /** What one diff must respect: no listed file that stays drops an active id the head has nowhere else, and the
      diff names no file with an active fact that a listing would skip, edited in any way or new. */
  ghost predicate Respects(a: Tree, b: Tree, entries: seq<Entry>) {
    && (forall p <- a :: p in b && Listed(p) && a[p].Fact? && a[p].active ==> HasId(b, a[p].id))
    && (forall p <- b :: !Listed(p) && b[p].Fact? && b[p].active ==> !Arrives(entries, p))
  }

  ghost predicate NoneHas(b: Tree, paths: seq<Path>, id: string) {
    forall q <- paths :: IdAt(b, q) != Some(id)
  }

  predicate SameAt(l: map<string, string>, m: map<string, string>, id: string) {
    (id in m <==> id in l) && (id in m ==> m[id] == l[id])
  }

  /** m is l with the entries of exactly the facts at paths brought up to b. */
  ghost predicate Upserted(b: Tree, paths: seq<Path>, l: map<string, string>, m: map<string, string>) {
    && (forall q <- paths :: q in b && b[q].Fact? ==> Right(m, b[q]))
    && (forall id :: NoneHas(b, paths, id) ==> SameAt(l, m, id))
  }

  lemma UpsertOne(b: Tree, l: map<string, string>, m: Ledger, paths: seq<Path>, p: Path)
    requires Parses(b) && UniqueIds(b) && Upserted(b, paths, l, m.facts)
    ensures Upserted(b, paths + [p], l, Ingest(b, m, p, NO_FAULTS).facts)
  {
    var n := Ingest(b, m, p, NO_FAULTS).facts;
    IngestIsRight(b, m, paths, p);
    hide Ingest, Right, IdAt, Parses, UniqueIds, NoneHas, SameAt;
    forall id | NoneHas(b, paths + [p], id) ensures SameAt(l, n, id) {
      NoneHasMore(b, paths, p, id);
      IngestElsewhere(b, m, p, id);
      SameThrough(l, m.facts, n, id);
    }
  }

  lemma SameThrough(l: map<string, string>, m: map<string, string>, n: map<string, string>, id: string)
    requires SameAt(l, m, id) && SameAt(m, n, id)
    ensures SameAt(l, n, id)
  {
  }

  lemma NoneHasMore(b: Tree, paths: seq<Path>, p: Path, id: string)
    requires NoneHas(b, paths + [p], id)
    ensures NoneHas(b, paths, id) && IdAt(b, p) != Some(id)
  {
    assert forall q :: q in paths + [p] <==> q in paths || q == p;
  }

  lemma IngestElsewhere(b: Tree, m: Ledger, p: Path, id: string)
    requires IdAt(b, p) != Some(id)
    ensures SameAt(m.facts, Ingest(b, m, p, NO_FAULTS).facts, id)
  {
  }

  lemma IngestIsRight(b: Tree, m: Ledger, paths: seq<Path>, p: Path)
    requires Parses(b) && UniqueIds(b) && forall q <- paths :: q in b && b[q].Fact? ==> Right(m.facts, b[q])
    ensures forall q <- paths + [p] :: q in b && b[q].Fact? ==> Right(Ingest(b, m, p, NO_FAULTS).facts, b[q])
  {
  }

  lemma {:induction false} IngestAllUpserts(b: Tree, l: Ledger, paths: seq<Path>)
    requires Parses(b) && UniqueIds(b)
    ensures Upserted(b, paths, l.facts, IngestAll(b, l, paths, NO_FAULTS).facts)
  {
    hide Parses, UniqueIds, Ingest, Right, IdAt;
    if paths != [] {
      var n := |paths| - 1;
      IngestAllUpserts(b, l, paths[..n]);
      UpsertOne(b, l.facts, IngestAll(b, l, paths[..n], NO_FAULTS), paths[..n], paths[n]);
      assert paths == paths[..n] + [paths[n]];
    }
  }

  /** facts is what a sync without faults from a to b makes of the ledger before. */
  ghost predicate Follow(a: Tree, b: Tree, entries: seq<Entry>, before: map<string, string>, facts: map<string, string>) {
    exists left, paths ::
      && IsLeft(a, entries, before, left) && Upserted(b, paths, left, facts)
      && (forall p :: p in paths <==> Arrives(entries, p))
  }

  lemma CleanSyncFollows(a: Commit, b: Commit, entries: seq<Entry>, before: map<string, string>)
    requires Parses(b.tree) && UniqueIds(b.tree) && a != b
    ensures var (u, r) := Synced(State(Some(a), before, {}), b, entries, NO_FAULTS);
            r.Some? && Follow(a.tree, b.tree, entries, before, u.facts)
  {
    hide Parses, UniqueIds, IngestAll, Upserted, Arrives;
    DepartExactly(a.tree, entries, before, NO_FAULTS);
    var d := Depart(a.tree, entries, before, NO_FAULTS);
    var paths := Sorted(d.targets + {});
    IngestAllUpserts(b.tree, Ledger(d.facts, {}, 0), paths);
    forall p ensures p in paths <==> Arrives(entries, p) {
      assert p in paths <==> p in Elements(paths);
    }
    assert IsLeft(a.tree, entries, before, d.facts);
  }

  lemma RespectfulIsExact(a: Tree, b: Tree, entries: seq<Entry>, before: map<string, string>, left: map<string, string>,
                          paths: seq<Path>, facts: map<string, string>)
    requires UniqueIds(a) && UniqueIds(b) && IsDiff(a, b, entries) && IsLedgerOf(a, before) && Respects(a, b, entries)
    requires IsLeft(a, entries, before, left) && Upserted(b, paths, left, facts)
    requires forall p :: p in paths <==> Arrives(entries, p)
    ensures IsLedgerOf(b, facts)
  {
    forall p <- b | Listed(p) && b[p].Fact? && b[p].active ensures b[p].id in facts && facts[b[p].id] == b[p].hash {
      ActiveIsThere(a, b, entries, before, left, paths, facts, p);
    }
    forall id <- facts ensures exists p <- b :: Listed(p) && b[p].Fact? && b[p].active && b[p].id == id {
      EntryHasFile(a, b, entries, before, left, paths, facts, id);
    }
  }

  lemma ActiveIsThere(a: Tree, b: Tree, entries: seq<Entry>, before: map<string, string>, left: map<string, string>,
                      paths: seq<Path>, facts: map<string, string>, p: Path)
    requires UniqueIds(a) && UniqueIds(b) && IsDiff(a, b, entries) && IsLedgerOf(a, before)
    requires IsLeft(a, entries, before, left) && Upserted(b, paths, left, facts)
    requires forall p :: p in paths <==> Arrives(entries, p)
    requires p in b && Listed(p) && b[p].Fact? && b[p].active
    ensures b[p].id in facts && facts[b[p].id] == b[p].hash
  {
    hide Listed, Arrives, Leaves;
    if p in paths {
      assert Right(facts, b[p]);
    } else {
      UnchangedStaysRight(a, b, entries, before, left, p);
      assert NoneHas(b, paths, b[p].id);
    }
  }

  lemma EntryHasFile(a: Tree, b: Tree, entries: seq<Entry>, before: map<string, string>, left: map<string, string>,
                     paths: seq<Path>, facts: map<string, string>, id: string)
    requires UniqueIds(a) && UniqueIds(b) && IsDiff(a, b, entries) && IsLedgerOf(a, before) && Respects(a, b, entries)
    requires IsLeft(a, entries, before, left) && Upserted(b, paths, left, facts)
    requires forall p :: p in paths <==> Arrives(entries, p)
    requires id in facts
    ensures exists p <- b :: Listed(p) && b[p].Fact? && b[p].active && b[p].id == id
  {
    hide Listed, Arrives, EntryFits;
    if q :| q in paths && IdAt(b, q) == Some(id) {
      assert Right(facts, b[q]);
      assert Arrives(entries, q);
    } else {
      assert NoneHas(b, paths, id);
      var p :| p in a && Listed(p) && a[p].Fact? && a[p].active && a[p].id == id;
      assert IdAt(a, p) == Some(id);
      assert p !in b ==> LeftBehind(a, entries, id);
      assert HasId(b, id);
      var q :| q in b && IdAt(b, q) == Some(id);
      assert q !in paths;
    }
  }

  lemma ExactIsRespectful(a: Tree, b: Tree, entries: seq<Entry>, before: map<string, string>, left: map<string, string>,
                          paths: seq<Path>, facts: map<string, string>)
    requires UniqueIds(a) && UniqueIds(b) && IsDiff(a, b, entries) && IsLedgerOf(a, before) && IsLedgerOf(b, facts)
    requires IsLeft(a, entries, before, left) && Upserted(b, paths, left, facts)
    requires forall p :: p in paths <==> Arrives(entries, p)
    ensures Respects(a, b, entries)
  {
    hide Arrives, Listed;
    forall p <- a | p in b && Listed(p) && a[p].Fact? && a[p].active ensures HasId(b, a[p].id) {
      StaysWithoutFile(a, b, entries, before, left, paths, facts, p);
    }
    forall p <- b | p in paths && b[p].Fact? && b[p].active ensures Listed(p) {
      assert Right(facts, b[p]);
    }
  }

  lemma StaysWithoutFile(a: Tree, b: Tree, entries: seq<Entry>, before: map<string, string>, left: map<string, string>,
                         paths: seq<Path>, facts: map<string, string>, p: Path)
    requires UniqueIds(a) && IsDiff(a, b, entries) && IsLedgerOf(a, before) && IsLedgerOf(b, facts)
    requires IsLeft(a, entries, before, left) && Upserted(b, paths, left, facts)
    requires p in a && p in b && Listed(p) && a[p].Fact? && a[p].active
    ensures HasId(b, a[p].id)
  {
    hide Arrives, Listed;
    var id := a[p].id;
    if q :| q in paths && IdAt(b, q) == Some(id) {
      assert q in b;
    } else {
      assert NoneHas(b, paths, id);
      assert !LeftBehind(a, entries, id);
      assert id in facts;
      var q :| q in b && b[q].Fact? && b[q].id == id;
      assert IdAt(b, q) == Some(id);
    }
  }

  /** A sync without faults turns the exact ledger of one commit into the exact ledger of the next if and only if
      the commits are the same or their diff respects the rule. */
  lemma CleanSyncIsExactly(a: Commit, b: Commit, entries: seq<Entry>, before: map<string, string>)
    requires Parses(a.tree) && Parses(b.tree) && UniqueIds(a.tree) && UniqueIds(b.tree)
    requires IsDiff(a.tree, b.tree, entries) && IsLedgerOf(a.tree, before)
    ensures var (u, r) := Synced(State(Some(a), before, {}), b, entries, NO_FAULTS);
            r.Some? && (IsLedgerOf(b.tree, u.facts) <==> a == b || Respects(a.tree, b.tree, entries))
  {
    hide Parses, UniqueIds, IsDiff, IsLeft, Upserted, Arrives;
    if a == b {
      hide IsLedgerOf;
      NothingToDo(a, entries, before);
    } else {
      CleanSyncFollows(a, b, entries, before);
      hide IsLedgerOf, Synced, Respects;
      var facts := Synced(State(Some(a), before, {}), b, entries, NO_FAULTS).0.facts;
      var left, paths :| IsLeft(a.tree, entries, before, left) && Upserted(b.tree, paths, left, facts)
                         && (forall p :: p in paths <==> Arrives(entries, p));
      if Respects(a.tree, b.tree, entries) {
        RespectfulIsExact(a.tree, b.tree, entries, before, left, paths, facts);
      }
      if IsLedgerOf(b.tree, facts) {
        ExactIsRespectful(a.tree, b.tree, entries, before, left, paths, facts);
      }
    }
  }

  lemma NothingToDo(a: Commit, entries: seq<Entry>, before: map<string, string>)
    ensures Synced(State(Some(a), before, {}), a, entries, NO_FAULTS) == (State(Some(a), before, {}), Some(Report(0, 0, {})))
  {
    NoElements(Sorted({}));
    var none: set<Path> := {};
    assert none + none == none;
  }

  /** An id edited in place leaves its old ledger entry behind, which a rebuild would not have. */
  lemma EditedIdGoesStale()
    ensures var a, b := map["knowledge/a.md" := Fact("F", "h", true)], map["knowledge/a.md" := Fact("G", "k", true)];
            var (u, r) := Synced(State(Some(Commit("1", a)), map["F" := "h"], {}), Commit("2", b), [Touched("knowledge/a.md")], NO_FAULTS);
            && Sound(a) && Sound(b) && IsDiff(a, b, [Touched("knowledge/a.md")]) && IsLedgerOf(a, map["F" := "h"])
            && r.Some? && u.dead == {} && "F" in u.facts && !HasId(b, "F") && !IsLedgerOf(b, u.facts)
  {
    var p := "knowledge/a.md";
    var a, b := map[p := Fact("F", "h", true)], map[p := Fact("G", "k", true)];
    ExampleIsListed();
    hide Listed;
    OneTouched(p, a, b, map["F" := "h"]);
    hide Synced;
    assert Touched(p) in [Touched(p)];
    assert Arrives([Touched(p)], p);
    assert IsDiff(a, b, [Touched(p)]);
    NoFileLeft(b, map["F" := "h", "G" := "k"]);
  }

  /** A ledger with an id that no file has is no ledger of the tree. */
  lemma NoFileLeft(b: Tree, facts: map<string, string>)
    requires "F" in facts && forall p <- b :: b[p].Fact? ==> b[p].id != "F"
    ensures !HasId(b, "F") && !IsLedgerOf(b, facts)
  {
  }

  /** An edit the engine does not read, of a fact in a file that a listing skips, puts that fact on the ledger; a
      rebuild would not have it. */
  lemma SkippedFileIsIndexed()
    ensures var a := map["knowledge/README.md" := Fact("F", "h", true)];
            var (u, r) := Synced(State(Some(Commit("1", a)), map[], {}), Commit("2", a), [Touched("knowledge/README.md")], NO_FAULTS);
            && IsDiff(a, a, [Touched("knowledge/README.md")]) && IsLedgerOf(a, map[])
            && r.Some? && "F" in u.facts && !IsLedgerOf(a, u.facts)
  {
    var p := "knowledge/README.md";
    var a := map[p := Fact("F", "h", true)];
    ReadmeIsSkipped();
    hide Listed;
    assert Touched(p) in [Touched(p)];
    OneTouched(p, a, a, map[]);
  }

  /** A sync whose diff names one file, with a fact that is active now. */
  lemma OneTouched(p: Path, a: Tree, b: Tree, before: map<string, string>)
    requires p in b && b[p].Fact? && b[p].active
    ensures var (u, r) := Synced(State(Some(Commit("1", a)), before, {}), Commit("2", b), [Touched(p)], NO_FAULTS);
            r.Some? && u == State(Some(Commit("2", b)), before[b[p].id := b[p].hash], {})
  {
    var entries := [Touched(p)];
    assert Depart(a, entries[..0], before, NO_FAULTS) == Departed(before, {}, 0);
    assert {} + {p} + {} == {p};
    SortedIsUnique(Sorted({p}), [p]);
    assert IngestAll(b, Ledger(before, {}, 0), [p][..0], NO_FAULTS) == Ledger(before, {}, 0);
  }

  lemma ReadmeIsSkipped()
    ensures !Listed("knowledge/README.md")
  {
    NameAfter("knowledge/", "README.md");
    assert "knowledge/" + "README.md" == "knowledge/README.md";
  }

  lemma ExampleIsListed()
    ensures Listed("knowledge/a.md")
  {
    NameAfter("knowledge/", "a.md");
    assert "knowledge/" + "a.md" == "knowledge/a" + ".md" == "knowledge/a.md";
  }

  lemma {:induction false} NameAfter(dir: Path, name: string)
    requires dir != "" && dir[|dir| - 1] == '/' && '/' !in name
    ensures FileName(dir + name) == name
  {
    if name == "" {
      assert dir + name == dir;
    } else {
      var n := |name| - 1;
      NameAfter(dir, name[..n]);
      assert (dir + name)[..|dir| + n] == dir + name[..n];
    }
  }

  // ---- the engine -------------------------------------------------------------------------

  datatype Cause = GraphNotReady | HistoryRewritten

  /** The answer of a sync: counters, the reason it was skipped, or the exception it ends with. */
  datatype Answer = Done(report: Report) | Degraded(cause: Cause) | Raised

  class SyncEngine {
    var saved: State
    var maintenance: bool
    var degraded: Option<Cause>

    constructor ()
      ensures saved == NEW && !maintenance && degraded == None
    {
      saved, maintenance, degraded := NEW, false, None;
    }

    /** Takes one id off the ledger in hand; fails if the graph does. */
    method DeleteById(facts: map<string, string>, id: Option<string>, faults: Faults)
      returns (ok: bool, deleted: bool, left: map<string, string>)
      ensures deleted <==> id.Some? && id.value in facts && id.value !in faults.deletes
      ensures ok <==> !(id.Some? && id.value in facts && id.value in faults.deletes)
      ensures left == if deleted then facts - {id.value} else facts
    {
      if id.Some? && id.value in facts {
        if id.value in faults.deletes {
          return false, false, facts;
        }
        return true, true, facts - {id.value};
      }
      return true, false, facts;
    }

    method ApplyDiff(a: Tree, entries: seq<Entry>, before: map<string, string>, faults: Faults) returns (d: Departed)
      ensures d == Depart(a, entries, before, faults)
    {
      var facts, targets: set<Path>, deleted := before, {}, 0;
      for n := 0 to |entries|
        invariant Depart(a, entries[..n], before, faults) == Departed(facts, targets, deleted)
      {
        assert entries[..n + 1][..n] == entries[..n];
        match entries[n]
        case Touched(p) => targets := targets + {p};
        case Removed(p) =>
          var ok, gone, left := DeleteById(facts, IdAt(a, p), faults);
          if !ok {
            DepartStops(a, entries, n + 1, before, faults);
            return Aborted;
          }
          facts, deleted := left, if gone then deleted + 1 else deleted;
        case Renamed(from, to) =>
          var ok, gone, left := DeleteById(facts, IdAt(a, from), faults);
          if !ok {
            DepartStops(a, entries, n + 1, before, faults);
            return Aborted;
          }
          facts, targets := left, targets + {to};
      }
      assert entries[..|entries|] == entries;
      return Departed(facts, targets, deleted);
    }

    /** Looks at every target in order; a fault at one of them is noted and the rest goes on. */
    method Upserts(b: Tree, start: Ledger, paths: seq<Path>, faults: Faults) returns (l: Ledger)
      ensures l == IngestAll(b, start, paths, faults)
    {
      var facts, dead, upserted := start.facts, start.dead, start.upserted;
      for n := 0 to |paths|
        invariant Ledger(facts, dead, upserted) == IngestAll(b, start, paths[..n], faults)
      {
        assert paths[..n + 1][..n] == paths[..n];
        var p := paths[n];
        if p !in b || b[p].Plain? {
          dead := dead - {p};
        } else if !b[p].Fact? || p in faults.upserts {
          dead := dead + {p};
        } else {
          if b[p].active {
            facts := facts[b[p].id := b[p].hash];
          } else {
            facts := facts - {b[p].id};
          }
          dead := dead - {p};
          upserted := upserted + 1;
        }
      }
      assert paths[..|paths|] == paths;
      return Ledger(facts, dead, upserted);
    }

    method SyncStore(head: Commit, entries: seq<Entry>, ready: bool, faults: Faults) returns (answer: Answer)
      modifies this
      ensures maintenance == old(maintenance)
      ensures !ready ==> saved == old(saved) && answer == Degraded(GraphNotReady) && degraded == Some(GraphNotReady)
      ensures ready ==> degraded == None
                        && var (u, r) := Synced(old(saved), head, entries, faults);
                           saved == u && answer == if r.Some? then Done(r.value) else Raised
    {
      degraded := None;
      if !ready {
        degraded := Some(GraphNotReady);
        return Degraded(GraphNotReady);
      }
      var state := saved;
      var start := Departed(state.facts, {}, 0);
      if state.last.None? {
        if exists p <- ListedPaths(head.tree) :: head.tree[p].Unreadable? {
          return Raised;
        }
        start := Departed(state.facts, ListedPaths(head.tree), 0);
      } else if state.last.value != head {
        start := ApplyDiff(state.last.value.tree, entries, state.facts, faults);
      }
      if start.Aborted? {
        return Raised;
      }
      var paths := Sort(start.targets + state.dead);
      var l := Upserts(head.tree, Ledger(start.facts, state.dead, 0), paths, faults);
      saved := State(Some(head), l.facts, l.dead);
      return Done(Report(l.upserted, start.deleted, l.dead));
    }

    method Sync(head: Commit, entries: seq<Entry>, rewritten: bool, ready: bool, faults: Faults) returns (answer: Answer)
      modifies this
      ensures maintenance == old(maintenance)
      ensures answer.Degraded? <==> rewritten || !ready
      ensures degraded == if answer.Degraded? then Some(answer.cause) else None
      ensures saved == if rewritten || !ready then old(saved) else Synced(old(saved), head, entries, faults).0
      ensures !rewritten && ready ==>
                var r := Synced(old(saved), head, entries, faults).1; answer == if r.Some? then Done(r.value) else Raised
    {
      if rewritten {
        degraded := Some(HistoryRewritten);
        return Degraded(HistoryRewritten);
      }
      answer := SyncStore(head, entries, ready, faults);
    }

    method BeginReindex() returns (ok: bool)
      modifies this`maintenance
      ensures ok == !old(maintenance) && maintenance
    {
      if maintenance {
        return false;
      }
      maintenance := true;
      return true;
    }

    /** Clears graph and ledger, then syncs from nothing. A graph that cannot be cleared changes nothing. */
    method DoReindex(head: Commit, clears: bool, rewritten: bool, ready: bool, faults: Faults) returns (answer: Answer)
      modifies this
      ensures maintenance == old(maintenance)
      ensures saved == Ran(old(saved), Run.Reindex(head, clears, !rewritten && ready, faults))
    {
      if !clears {
        return Raised;
      }
      saved := saved.(facts := map[], dead := {}, last := None);
      answer := Sync(head, [], rewritten, ready, faults);
    }

    /** A second reindex while one is under way is refused; the flag is released however the first one ends. */
    method Reindex(head: Commit, clears: bool, rewritten: bool, ready: bool, faults: Faults) returns (answer: Option<Answer>)
      modifies this
      ensures answer.None? <==> old(maintenance)
      ensures maintenance == old(maintenance)
      ensures saved == if old(maintenance) then old(saved)
                       else Ran(old(saved), Run.Reindex(head, clears, !rewritten && ready, faults))
    {
      var ok := BeginReindex();
      if !ok {
        return None;
      }
      var done := DoReindex(head, clears, rewritten, ready, faults);
      maintenance := false;
      return Some(done);
    }
  }

  lemma {:induction false} DepartStops(a: Tree, entries: seq<Entry>, n: nat, facts: map<string, string>, faults: Faults)
    requires n <= |entries| && Depart(a, entries[..n], facts, faults).Aborted?
    ensures Depart(a, entries, facts, faults).Aborted?
    decreases |entries| - n
  {
    if n == |entries| {
      assert entries[..n] == entries;
    } else {
      assert entries[..n + 1][..n] == entries[..n];
      DepartStops(a, entries, n + 1, facts, faults);
    }
  }
}
