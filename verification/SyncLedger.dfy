/** What one sync leaves on the ledger and among the dead letters, file by file, whatever the files are. */
module SyncLedger {
  import opened Domain
  import opened Ordering
  import opened GitSync

  // ---- names ------------------------------------------------------------------------------

  /** The path is this name, at the top or in a directory. */
  ghost predicate IsNamed(p: Path, name: string) {
    p == name || (|p| > |name| && p[|p| - |name|..] == name && p[|p| - |name| - 1] == '/')
  }

  /** A Markdown file that is not one of the two reserved ones. */
  ghost predicate IsFactFile(p: Path) {
    |p| >= 3 && p[|p| - 3] == '.' && p[|p| - 2] == 'm' && p[|p| - 1] == 'd' && !IsNamed(p, "CONVENTIONS.md") && !IsNamed(p, "README.md")
  }

  lemma {:induction false} NamedExactly(p: Path, name: string)
    requires '/' !in name
    ensures FileName(p) == name <==> (if name == "" then p == "" || p[|p| - 1] == '/' else IsNamed(p, name))
  {
    if p != "" && name != "" {
      var m, n := |p| - 1, |name| - 1;
      if p[m] == '/' {
        assert name[n] != '/';
      } else {
        NamedExactly(p[..m], name[..n]);
        assert p == p[..m] + [p[m]] && name == name[..n] + [name[n]];
        if IsNamed(p, name) && |p| > |name| {
          assert p[..m][m - n..] == p[|p| - |name|..][..n];
        }
        if name[..n] != "" && IsNamed(p[..m], name[..n]) && m > n && p[m] == name[n] {
          assert p[|p| - |name|..] == p[..m][m - n..] + [p[m]];
        }
        if n == 0 && m > 0 && p[m] == name[0] {
          assert p[m..] == [p[m]];
        }
      }
    }
  }

  lemma ListedExactly(p: Path)
    ensures Listed(p) <==> IsFactFile(p)
  {
    NamedExactly(p, "CONVENTIONS.md");
    NamedExactly(p, "README.md");
    hide FileName, IsNamed;
    if |p| >= 3 {
      assert p[|p| - 3..] == [p[|p| - 3], p[|p| - 2], p[|p| - 1]];
    }
  }

  // ---- one path after the other -----------------------------------------------------------

  /** The file is there and cannot be brought onto the ledger: it does not parse, has no proper id, or its upsert fails. */
  ghost predicate Fails(b: Tree, p: Path, faults: Faults) {
    p in b && (b[p].Unreadable? || b[p].BadId? || (b[p].Fact? && p in faults.upserts))
  }

  ghost predicate IsUpserted(b: Tree, p: Path, faults: Faults) {
    p in b && b[p].Fact? && p !in faults.upserts
  }

  ghost predicate IsIdOfOne(b: Tree, looked: set<Path>, faults: Faults, id: string) {
    exists p <- looked :: IsUpserted(b, p, faults) && b[p].id == id
  }

  ghost function Brought(b: Tree, looked: set<Path>, faults: Faults): set<Path> {
    set p <- looked | IsUpserted(b, p, faults)
  }

  /** The ledger m is l once the paths were looked at: those that fail are dead-lettered and no others of them, those of
      facts are right, and no other id has changed. */
  ghost predicate IsBroughtUp(b: Tree, looked: set<Path>, faults: Faults, l: Ledger, m: Ledger) {
    && (forall p :: p in m.dead <==> if p in looked then Fails(b, p, faults) else p in l.dead)
    && (forall p <- looked :: IsUpserted(b, p, faults) ==> Right(m.facts, b[p]))
    && (forall id :: IsIdOfOne(b, looked, faults, id) || SameAt(l.facts, m.facts, id))
    && m.upserted == l.upserted + |Brought(b, looked, faults)|
  }

  lemma OneMoreLookedAt(b: Tree, looked: set<Path>, faults: Faults, p: Path, id: string)
    requires p !in looked
    ensures Brought(b, looked + {p}, faults) == Brought(b, looked, faults) + if IsUpserted(b, p, faults) then {p} else {}
    ensures |Brought(b, looked + {p}, faults)| == |Brought(b, looked, faults)| + if IsUpserted(b, p, faults) then 1 else 0
    ensures IsIdOfOne(b, looked + {p}, faults, id) <==> IsIdOfOne(b, looked, faults, id) || (IsUpserted(b, p, faults) && b[p].id == id)
  {
    hide IsUpserted;
    assert Brought(b, looked + {p}, faults) == Brought(b, looked, faults) + if IsUpserted(b, p, faults) then {p} else {};
    IdHasFile(b, p, faults);
    forall q ensures IsUpserted(b, q, faults) ==> q in b && b[q].Fact? {
      IdHasFile(b, q, faults);
    }
  }

  lemma IdHasFile(b: Tree, p: Path, faults: Faults)
    ensures IsUpserted(b, p, faults) ==> p in b && b[p].Fact?
  {
  }

  /** What looking at one path does to the ledger. */
  lemma IngestIs(b: Tree, m: Ledger, p: Path, faults: Faults)
    ensures var n := Ingest(b, m, p, faults);
            && n.dead == (if Fails(b, p, faults) then m.dead + {p} else m.dead - {p})
            && n.upserted == m.upserted + (if IsUpserted(b, p, faults) then 1 else 0)
            && (if IsUpserted(b, p, faults) then Right(n.facts, b[p]) && forall id :: id != b[p].id ==> SameAt(m.facts, n.facts, id)
                else n.facts == m.facts)
  {
  }

  lemma IngestOne(b: Tree, looked: set<Path>, faults: Faults, l: Ledger, m: Ledger, p: Path)
    requires UniqueIds(b) && p !in looked && IsBroughtUp(b, looked, faults, l, m)
    ensures IsBroughtUp(b, looked + {p}, faults, l, Ingest(b, m, p, faults))
  {
    var n, more := Ingest(b, m, p, faults), looked + {p};
    IngestIs(b, m, p, faults);
    OneMoreLookedAt(b, looked, faults, p, "");
    forall q <- more | IsUpserted(b, q, faults) ensures Right(n.facts, b[q]) {
      StaysRight(b, faults, m.facts, n.facts, p, q);
    }
    hide Ingest, Fails, Brought, UniqueIds, Right;
    forall id ensures IsIdOfOne(b, more, faults, id) || SameAt(l.facts, n.facts, id) {
      OneMoreLookedAt(b, looked, faults, p, id);
      hide IsIdOfOne, IsUpserted;
    }
  }

  lemma StaysRight(b: Tree, faults: Faults, facts: map<string, string>, after: map<string, string>, p: Path, q: Path)
    requires UniqueIds(b) && IsUpserted(b, q, faults) && (q != p ==> Right(facts, b[q]))
    requires if IsUpserted(b, p, faults) then Right(after, b[p]) && forall id :: id != b[p].id ==> SameAt(facts, after, id)
             else after == facts
    ensures Right(after, b[q])
  {
    if q != p && IsUpserted(b, p, faults) {
      assert b[q].id != b[p].id;
      assert SameAt(facts, after, b[q].id);
    }
  }

  lemma {:induction false} IngestAllExactly(b: Tree, l: Ledger, paths: seq<Path>, faults: Faults)
    requires UniqueIds(b) && Distinct(paths)
    ensures IsBroughtUp(b, Elements(paths), faults, l, IngestAll(b, l, paths, faults))
  {
    if paths == [] {
      assert Brought(b, Elements(paths), faults) == {};
    } else {
      var n := |paths| - 1;
      IngestAllExactly(b, l, paths[..n], faults);
      hide IsBroughtUp, UniqueIds, Ingest;
      IngestOne(b, Elements(paths[..n]), faults, l, IngestAll(b, l, paths[..n], faults), paths[n]);
      assert Elements(paths) == Elements(paths[..n]) + {paths[n]};
    }
  }

  lemma RemovesOne(facts: map<string, string>, id: string)
    requires id in facts
    ensures |facts - {id}| == |facts| - 1
  {
    assert (facts - {id})[id := facts[id]] == facts;
  }

  ghost predicate NoneMoves(entries: seq<Entry>) {
    forall e <- entries :: !e.Renamed?
  }

  lemma NoneMovesMore(entries: seq<Entry>)
    requires entries != []
    ensures NoneMoves(entries) <==> NoneMoves(entries[..|entries| - 1]) && !entries[|entries| - 1].Renamed?
  {
    assert entries == entries[..|entries| - 1] + [entries[|entries| - 1]];
  }

  /** The ids that leave with a removed file are counted, those of moved files are not. */
  lemma {:induction false} DepartCounts(a: Tree, entries: seq<Entry>, facts: map<string, string>, faults: Faults)
    ensures match Depart(a, entries, facts, faults)
            case Aborted => true
            case Departed(left, _, deleted) =>
              deleted <= |facts| - |left| && (NoneMoves(entries) ==> deleted == |facts| - |left|)
  {
    if entries != [] {
      var n := |entries| - 1;
      DepartCounts(a, entries[..n], facts, faults);
      NoneMovesMore(entries);
      DepartOne(a, entries, facts, faults);
      hide Depart, NoneMoves;
    }
  }

  /** The last entry of a diff takes at most one id off the ledger. */
  lemma DepartOne(a: Tree, entries: seq<Entry>, facts: map<string, string>, faults: Faults)
    requires entries != []
    ensures var d, m := Depart(a, entries, facts, faults), Depart(a, entries[..|entries| - 1], facts, faults);
            d.Departed? ==>
              && m.Departed?
              && if |d.facts| == |m.facts| then d.deleted == m.deleted
                 else |d.facts| == |m.facts| - 1 && d.deleted == m.deleted + if entries[|entries| - 1].Renamed? then 0 else 1
  {
    var d := Depart(a, entries[..|entries| - 1], facts, faults);
    var p := Departing(entries[|entries| - 1]);
    if d.Departed? && p.Some? && IdAt(a, p.value).Some? && IdAt(a, p.value).value in d.facts {
      RemovesOne(d.facts, IdAt(a, p.value).value);
    }
    hide IdAt;
  }

  // ---- one sync ---------------------------------------------------------------------------

  ghost predicate HasUnreadable(c: Tree) {
    exists p <- c :: IsFactFile(p) && c[p].Unreadable?
  }

  /** What a sync starts from: all fact files, or the paths its diff names, and the dead letters; left is what the
      departures of the diff leave of the ledger. */
  ghost predicate StartsFrom(s: State, head: Commit, entries: seq<Entry>, left: map<string, string>, looked: set<Path>) {
    match s.last
    case None => left == s.facts && forall p :: p in looked <==> (p in head.tree && IsFactFile(p)) || p in s.dead
    case Some(a) =>
      if a == head then left == s.facts && looked == s.dead
      else IsLeft(a.tree, entries, s.facts, left) && forall p :: p in looked <==> Arrives(entries, p) || p in s.dead
  }

  ghost predicate CountsDeleted(s: State, entries: seq<Entry>, left: map<string, string>, deleted: nat) {
    && deleted <= |s.facts| - |left|
    && (NoneMoves(entries) ==> deleted == |s.facts| - |left|)
  }

  lemma ListedAreFactFiles(c: Tree)
    ensures ListedPaths(c) == set p <- c | IsFactFile(p)
    ensures (exists p <- ListedPaths(c) :: c[p].Unreadable?) <==> HasUnreadable(c)
  {
    forall p ensures Listed(p) <==> IsFactFile(p) {
      ListedExactly(p);
    }
    hide Listed, IsFactFile;
  }

  lemma StartExactly(s: State, head: Commit, entries: seq<Entry>, faults: Faults)
    ensures var d := Start(s, head, entries, faults);
            && (d.Departed? ==> StartsFrom(s, head, entries, d.facts, d.targets + s.dead) && CountsDeleted(s, entries, d.facts, d.deleted))
            && (s.last.None? ==> (d.Aborted? <==> HasUnreadable(head.tree)))
  {
    hide Depart, Arrives, LeftBehind, Listed, IsFactFile, HasUnreadable;
    ListedAreFactFiles(head.tree);
    if s.last.Some? && s.last.value != head {
      DepartExactly(s.last.value.tree, entries, s.facts, faults);
      DepartCounts(s.last.value.tree, entries, s.facts, faults);
    }
  }

  /** A sync looks at all fact files, or at the paths of the diff, and always at the dead letters. Unless it is aborted,
      which leaves the state alone, exactly the files among them that fail are dead-lettered, the facts of the others are
      right on the ledger, no other id changes but those that depart, and the report counts what was done. */
  lemma SyncedExactly(s: State, head: Commit, entries: seq<Entry>, faults: Faults) returns (left: map<string, string>, looked: set<Path>)
    requires UniqueIds(head.tree)
    ensures var (u, r) := Synced(s, head, entries, faults);
            && (r.None? ==> u == s)
            && (s.last.None? ==> (r.None? <==> HasUnreadable(head.tree)))
            && (r.Some? ==>
                  && u.last == Some(head) && StartsFrom(s, head, entries, left, looked)
                  && IsBroughtUp(head.tree, looked, faults, Ledger(left, s.dead, 0), Ledger(u.facts, u.dead, r.value.upserted))
                  && (forall p <- u.dead :: p in looked)
                  && r.value.dead == u.dead && CountsDeleted(s, entries, left, r.value.deleted))
  {
    left, looked := map[], {};
    StartExactly(s, head, entries, faults);
    var d := Start(s, head, entries, faults);
    if d.Departed? {
      left, looked := d.facts, d.targets + s.dead;
      AscendingIsDistinct(Sorted(looked));
      hide UniqueIds, StartsFrom, Start, IngestAll;
      IngestAllExactly(head.tree, Ledger(left, s.dead, 0), Sorted(looked), faults);
    }
  }
}
