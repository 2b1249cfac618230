/** The order in which the facts of a Git snapshot are imported: every superseded fact before its replacement. */
module ImportPlan {
  import opened Domain
  import opened Ordering

  /** A value in the front matter of a post; of one that is no text, whether it counts as true, how it reads as text and,
      unless it is a date or the like, its JSON text. */
  datatype Raw = Absent | Text(text: string) | Other(truthy: bool, shown: string, json: Option<string>)

  predicate Truthy(raw: Raw) {
    match raw
    case Absent => false
    case Text(text) => text != ""
    case Other(truthy, _, _) => truthy
  }

  /** What each post holds under superseded_by. */
  type Links = map<string, Raw>

  datatype PlanError =
    | NotString(older: string)
    | TargetMissing(older: string, target: string)
    | SupersedesItself(older: string)
    | Cycle(stuck: seq<string>)

  datatype Plan = Planned(order: seq<string>) | Refused(error: PlanError)

  predicate Replaces(links: Links, newer: string, older: string) {
    older in links && links[older] == Text(newer)
  }

  function LinkError(links: Links, older: string): Option<PlanError>
    requires older in links
  {
    match links[older]
    case Absent => None
    case Other(_, _, _) => Some(NotString(older))
    case Text(target) =>
      if target !in links then Some(TargetMissing(older, target))
      else if target == older then Some(SupersedesItself(older))
      else None
  }

  ghost predicate WellLinked(links: Links) {
    forall id <- links :: LinkError(links, id).None?
  }

  // ---- cycles -----------------------------------------------------------------------------

  /** Each fact of the walk is superseded by the next one. */
  ghost predicate IsWalk(links: Links, walk: seq<string>) {
    && walk != []
    && (forall id <- walk :: id in links)
    && (forall i, j :: 0 <= i && j == i + 1 < |walk| ==> Replaces(links, walk[j], walk[i]))
  }

  ghost predicate IsCycle(links: Links, walk: seq<string>) {
    IsWalk(links, walk) && |walk| >= 2 && walk[0] == walk[|walk| - 1]
  }

  ghost predicate HasCycle(links: Links) {
    exists walk :: IsCycle(links, walk)
  }

  /** A walk around a cycle can be continued to id. */
  ghost predicate BehindCycle(links: Links, id: string) {
    exists cycle, walk :: IsCycle(links, cycle) && IsWalk(links, walk) && walk[0] in cycle && walk[|walk| - 1] == id
  }

  // ---- orders -----------------------------------------------------------------------------

  /** All facts, each once, every superseded one before its replacement. */
  ghost predicate IsOrder(links: Links, q: seq<string>) {
    && Distinct(q) && Elements(q) == links.Keys
    && (forall i, j :: 0 <= i < |q| && 0 <= j < |q| && Replaces(links, q[j], q[i]) ==> i < j)
  }

  /** At the first place where they differ, q has the smaller id. */
  ghost predicate Precedes(q: seq<string>, p: seq<string>) {
    exists i :: 0 <= i < |q| && i < |p| && q[..i] == p[..i] && Below(q[i], p[i])
  }

  ghost predicate IsLeastOrder(links: Links, q: seq<string>) {
    IsOrder(links, q) && forall p :: IsOrder(links, p) ==> p == q || Precedes(q, p)
  }

  // ---- the greedy choice ------------------------------------------------------------------

  function Olds(links: Links, newer: string): set<string> {
    set older <- links | links[older] == Text(newer)
  }

  function Newer(links: Links, older: string): set<string>
    requires older in links
  {
    if links[older].Text? then {links[older].text} else {}
  }

  function ReadySet(links: Links, done: set<string>): set<string> {
    set id <- links | id !in done && Olds(links, id) <= done
  }

  /** Every step took the least id whose superseded facts were all taken. */
  ghost predicate Greedy(links: Links, q: seq<string>) {
    forall i :: 0 <= i < |q| ==> IsLeast(q[i], ReadySet(links, Elements(q[..i])))
  }

  lemma ReadyAfter(links: Links, done: set<string>, x: string)
    requires x in ReadySet(links, done)
    ensures ReadySet(links, done + {x}) == ReadySet(links, done) - {x} + (set d <- Newer(links, x) | d in links && d !in done + {x} && Olds(links, d) <= done + {x})
  {
    forall id <- links | Olds(links, id) <= done + {x} && !(Olds(links, id) <= done) ensures id in Newer(links, x) {
      assert x in Olds(links, id);
    }
  }

  /** A greedy sequence never repeats an id and takes every superseded fact before its replacement. */
  lemma GreedyIsClosed(links: Links, q: seq<string>)
    requires Greedy(links, q)
    ensures Distinct(q) && Elements(q) <= links.Keys
    ensures forall j :: 0 <= j < |q| ==> Olds(links, q[j]) <= Elements(q[..j])
    ensures forall x <- q :: Olds(links, x) <= Elements(q)
  {
    forall i, j | 0 <= i < j < |q| ensures q[i] != q[j] {
      assert q[j] in ReadySet(links, Elements(q[..j]));
      assert q[i] in q[..j];
    }
  }

  lemma IndexOf(q: seq<string>, x: string) returns (i: nat)
    requires x in q
    ensures i < |q| && q[i] == x
  {
    i :| 0 <= i < |q| && q[i] == x;
  }

  /** Nothing greedy ever reaches the end of a walk that starts in a cycle. */
  lemma {:induction false} CycleIsUntaken(links: Links, q: seq<string>, cycle: seq<string>, k: nat, n: nat)
    requires Greedy(links, q) && IsCycle(links, cycle) && k < |cycle| && n < |q|
    ensures q[n] != cycle[k]
    decreases n
  {
    if q[n] == cycle[k] {
      var before := if k == 0 then |cycle| - 2 else k - 1;
      assert Replaces(links, cycle[before + 1], cycle[before]) && cycle[before + 1] == cycle[k];
      GreedyIsClosed(links, q);
      assert cycle[before] in Olds(links, q[n]);
      var m := IndexOf(q[..n], cycle[before]);
      CycleIsUntaken(links, q, cycle, before, m);
    }
  }

  lemma {:induction false} BehindIsUntaken(links: Links, q: seq<string>, cycle: seq<string>, walk: seq<string>, k: nat, n: nat)
    requires Greedy(links, q) && IsCycle(links, cycle) && IsWalk(links, walk) && walk[0] in cycle
    requires k < |walk| && n < |q|
    ensures q[n] != walk[k]
    decreases n
  {
    if q[n] == walk[k] {
      if k == 0 {
        var c := IndexOf(cycle, walk[0]);
        CycleIsUntaken(links, q, cycle, c, n);
      } else {
        assert Replaces(links, walk[k], walk[k - 1]);
        GreedyIsClosed(links, q);
        assert walk[k - 1] in Olds(links, q[n]);
        var m := IndexOf(q[..n], walk[k - 1]);
        BehindIsUntaken(links, q, cycle, walk, k - 1, m);
      }
    }
  }

  /** When nothing is ready, a walk of any length leads to an untaken fact through untaken facts. */
  lemma {:induction false} WalkBack(links: Links, q: seq<string>, id: string, n: nat) returns (walk: seq<string>)
    requires ReadySet(links, Elements(q)) == {} && id in links && id !in q
    ensures IsWalk(links, walk) && |walk| == n + 1 && walk[n] == id
    ensures forall x <- walk :: x !in q
    decreases n
  {
    if n == 0 {
      walk := [id];
    } else {
      assert id !in ReadySet(links, Elements(q));
      var older :| older in Olds(links, id) && older !in Elements(q);
      var rest := WalkBack(links, q, older, n - 1);
      walk := rest + [id];
    }
  }

  lemma {:induction false} Repeats(walk: seq<string>, s: set<string>) returns (i: nat, j: nat)
    requires |walk| > |s| && forall x <- walk :: x in s
    ensures i < j < |walk| && walk[i] == walk[j]
    decreases |walk|
  {
    var n := |walk| - 1;
    if last :| 0 <= last < n && walk[last] == walk[n] {
      i, j := last, n;
    } else {
      i, j := Repeats(walk[..n], s - {walk[n]});
    }
  }

  lemma StuckIsBehindCycle(links: Links, q: seq<string>, id: string)
    requires ReadySet(links, Elements(q)) == {} && id in links && id !in q
    ensures BehindCycle(links, id)
  {
    hide ReadySet;
    var walk := WalkBack(links, q, id, |links.Keys|);
    var i, j := Repeats(walk, links.Keys);
    PartOfWalk(links, walk, i, j + 1);
    PartOfWalk(links, walk, j, |walk|);
    var cycle, rest := walk[i..j + 1], walk[j..|walk|];
    hide IsWalk;
    assert IsCycle(links, cycle) && rest[0] == cycle[j - i] && rest[|rest| - 1] == id;
  }

  lemma PartOfWalk(links: Links, walk: seq<string>, i: nat, j: nat)
    requires IsWalk(links, walk) && i < j <= |walk|
    ensures IsWalk(links, walk[i..j])
  {
    assert forall x <- walk[i..j] :: x in walk;
    hide Replaces;
  }

  /** A greedy sequence that cannot go on leaves out exactly the facts behind a cycle. */
  lemma LeftOutExactly(links: Links, q: seq<string>, id: string)
    requires Greedy(links, q) && ReadySet(links, Elements(q)) == {} && id in links
    ensures id !in q <==> BehindCycle(links, id)
  {
    if id !in q {
      StuckIsBehindCycle(links, q, id);
    } else if BehindCycle(links, id) {
      var cycle, walk :| IsCycle(links, cycle) && IsWalk(links, walk) && walk[0] in cycle && walk[|walk| - 1] == id;
      var n := IndexOf(q, id);
      BehindIsUntaken(links, q, cycle, walk, |walk| - 1, n);
    }
  }

  lemma GreedyIsOrder(links: Links, q: seq<string>)
    requires Greedy(links, q) && Elements(q) == links.Keys
    ensures IsOrder(links, q)
  {
    GreedyIsClosed(links, q);
    forall i, j | 0 <= i < |q| && 0 <= j < |q| && Replaces(links, q[j], q[i]) ensures i < j {
      assert q[i] in Olds(links, q[j]);
      var m := IndexOf(q[..j], q[i]);
    }
  }

  /** Different sequences of one length have a first place where they differ. */
  lemma {:induction false} FirstDifference(q: seq<string>, p: seq<string>) returns (i: nat)
    requires |q| == |p| && q != p
    ensures i < |q| && q[..i] == p[..i] && q[i] != p[i]
  {
    if q[0] != p[0] {
      i := 0;
    } else {
      assert q == [q[0]] + q[1..] && p == [p[0]] + p[1..];
      var m := FirstDifference(q[1..], p[1..]);
      i := m + 1;
      assert q[..i] == [q[0]] + q[1..][..m] && p[..i] == [p[0]] + p[1..][..m];
    }
  }

  lemma GreedyIsLeast(links: Links, q: seq<string>, p: seq<string>)
    requires WellLinked(links) && Greedy(links, q) && IsOrder(links, q) && IsOrder(links, p) && p != q
    ensures Precedes(q, p)
  {
    DistinctSize(q);
    DistinctSize(p);
    var i := FirstDifference(q, p);
    forall older <- Olds(links, p[i]) ensures older in p[..i] {
      assert older in Elements(p);
      var m := IndexOf(p, older);
      assert Replaces(links, p[i], p[m]);
    }
    forall x <- p[..i] ensures x != p[i] {
      var m := IndexOf(p[..i], x);
    }
    assert p[i] in Elements(p);
    assert p[i] in ReadySet(links, Elements(q[..i]));
    assert IsLeast(q[i], ReadySet(links, Elements(q[..i])));
  }

  // ---- the importer's planner -------------------------------------------------------------

  /** The first offending post, in the order of the snapshot, decides the error. */
  ghost predicate FirstLinkError(links: Links, posts: seq<string>, e: PlanError)
    requires forall id <- posts :: id in links
  {
    exists i :: 0 <= i < |posts| && LinkError(links, posts[i]) == Some(e) && forall j :: 0 <= j < i ==> LinkError(links, posts[j]).None?
  }

  /** The two maps after the posts in seen. */
  ghost predicate Gathered(links: Links, seen: set<string>, dependencies: map<string, set<string>>, dependants: map<string, set<string>>) {
    && dependencies.Keys == dependants.Keys == links.Keys
    && (forall id <- links :: dependencies[id] == Olds(links, id) * seen)
    && (forall id <- links :: dependants[id] == if id in seen then Newer(links, id) else {})
  }

  method Gather(links: Links, ghost seen: set<string>, older: string,
                dependencies: map<string, set<string>>, dependants: map<string, set<string>>)
    returns (error: Option<PlanError>, dependencies': map<string, set<string>>, dependants': map<string, set<string>>)
    requires Gathered(links, seen, dependencies, dependants) && older in links && older !in seen
    ensures error == LinkError(links, older)
    ensures error.None? ==> Gathered(links, seen + {older}, dependencies', dependants')
  {
    error, dependencies', dependants' := None, dependencies, dependants;
    match links[older]
    case Absent =>
    case Other(_, _, _) => error := Some(NotString(older));
    case Text(target) =>
      if target !in links {
        error := Some(TargetMissing(older, target));
      } else if target == older {
        error := Some(SupersedesItself(older));
      } else {
        dependencies' := dependencies[target := dependencies[target] + {older}];
        dependants' := dependants[older := dependants[older] + {target}];
      }
  }

  method DependenciesOf(posts: seq<string>, links: Links)
    returns (error: Option<PlanError>, dependencies: map<string, set<string>>, dependants: map<string, set<string>>)
    requires Distinct(posts) && Elements(posts) == links.Keys
    ensures forall id <- posts :: id in Elements(posts)
    ensures error.Some? ==> !WellLinked(links) && !error.value.Cycle? && FirstLinkError(links, posts, error.value)
    ensures error.None? ==> WellLinked(links) && Gathered(links, links.Keys, dependencies, dependants)
  {
    hide Gathered, WellLinked, Olds, Newer, Elements;
    AllAreElements(posts);
    dependencies := map id <- links :: {};
    dependants := map id <- links :: {};
    error := None;
    NothingGathered(links);
    for n := 0 to |posts|
      invariant error.None?
      invariant forall j :: 0 <= j < n ==> LinkError(links, posts[j]).None?
      invariant Gathered(links, Elements(posts[..n]), dependencies, dependants)
    {
      assert posts[n] in posts;
      ElementsMore(posts, n);
      error, dependencies, dependants := Gather(links, Elements(posts[..n]), posts[n], dependencies, dependants);
      if error.Some? {
        OneIsBad(links, posts[n]);
        return;
      }
    }
    assert posts[..|posts|] == posts;
    AllPosts(posts, links);
  }

  lemma AllAreElements(posts: seq<string>)
    ensures (forall id <- posts :: id in Elements(posts)) && posts[..0] == []
  {
  }

  lemma ElementsMore(posts: seq<string>, n: nat)
    requires n < |posts| && Distinct(posts)
    ensures Elements(posts[..n + 1]) == Elements(posts[..n]) + {posts[n]} && posts[n] !in Elements(posts[..n])
  {
    assert posts[..n + 1] == posts[..n] + [posts[n]];
  }

  lemma OneIsBad(links: Links, older: string)
    requires older in links && LinkError(links, older).Some?
    ensures !WellLinked(links)
  {
  }

  lemma NothingGathered(links: Links)
    ensures Gathered(links, Elements([]), map id <- links :: {}, map id <- links :: {})
  {
  }

  lemma AllPosts(posts: seq<string>, links: Links)
    requires Elements(posts) == links.Keys
    requires forall j :: 0 <= j < |posts| ==> posts[j] in links && LinkError(links, posts[j]).None?
    ensures WellLinked(links)
  {
    forall id <- links ensures LinkError(links, id).None? {
      assert id in Elements(posts);
    }
  }

  // ---- the loop ---------------------------------------------------------------------------

  /** What is still missing before id, once x is taken and its dependants in told have been told. */
  ghost function Awaits(links: Links, done: set<string>, x: string, told: set<string>, id: string): set<string>
    requires x in links
  {
    Olds(links, id) - (if id in Newer(links, x) && id !in told then done else done + {x})
  }

  lemma NewerIsUntaken(links: Links, ordered: seq<string>, x: string, d: string)
    requires WellLinked(links) && Greedy(links, ordered) && x in ReadySet(links, Elements(ordered)) && d in Newer(links, x)
    ensures d in links && d !in Elements(ordered) + {x} && x in Olds(links, d)
  {
    assert LinkError(links, x).None?;
    assert x in Olds(links, d);
    GreedyIsClosed(links, ordered);
  }

  lemma GreedyGrows(links: Links, ordered: seq<string>, x: string)
    requires Greedy(links, ordered) && IsLeast(x, ReadySet(links, Elements(ordered)))
    ensures Greedy(links, ordered + [x]) && Elements(ordered + [x]) == Elements(ordered) + {x}
  {
    var q := ordered + [x];
    forall i | 0 <= i < |q| ensures IsLeast(q[i], ReadySet(links, Elements(q[..i]))) {
      if i == |ordered| {
        assert q[..i] == ordered;
      } else {
        assert q[..i] == ordered[..i];
      }
    }
  }

  /** x is taken and its dependants in told are told: those that now wait for nothing are ready. */
  ghost predicate Told(links: Links, done: set<string>, x: string, told: set<string>,
                       ready: seq<string>, left: map<string, set<string>>)
    requires x in links
  {
    && left.Keys == links.Keys && (forall id <- links :: left[id] == Awaits(links, done, x, told, id))
    && Ascending(ready)
    && (forall id :: id in ready <==> (id in ReadySet(links, done) && id != x) || (id in told && Olds(links, id) <= done + {x}))
  }

  method Tell(links: Links, ghost done: set<string>, x: string, ghost told: set<string>, d: string,
              ready: seq<string>, left: map<string, set<string>>)
    returns (ready': seq<string>, left': map<string, set<string>>)
    requires x in links && x !in done && Told(links, done, x, told, ready, left)
    requires d in Newer(links, x) && d in links && d !in told && x in Olds(links, d)
    ensures Told(links, done, x, told + {d}, ready', left')
  {
    hide ReadySet;
    left' := left[d := left[d] - {x}];
    assert left'[d] == Olds(links, d) - (done + {x});
    forall id <- links ensures left'[id] == Awaits(links, done, x, told + {d}, id) {
      AwaitsLess(links, done, x, told, d, id);
    }
    hide Awaits, Newer;
    ready' := ready;
    if left'[d] == {} {
      ready' := Sort(Elements(ready) + {d});
      forall id ensures id in ready' <==> id in ready || id == d {
        assert id in ready' <==> id in Elements(ready');
      }
    }
  }

  lemma AwaitsLess(links: Links, done: set<string>, x: string, told: set<string>, d: string, id: string)
    requires x in links && d in Newer(links, x) && d !in told
    ensures Awaits(links, done, x, told + {d}, id) ==
            if id == d then Olds(links, d) - (done + {x}) else Awaits(links, done, x, told, id)
  {
    hide Olds;
  }

  lemma ToldNone(links: Links, done: set<string>, x: string, ready: seq<string>, left: map<string, set<string>>)
    requires x in links && Ascending(ready) && Elements(ready) == ReadySet(links, done) - {x}
    requires left == map id <- links :: Olds(links, id) - done
    ensures Told(links, done, x, {}, ready, left)
  {
    hide ReadySet;
    forall id ensures id in ready <==> id in ReadySet(links, done) && id != x {
      assert id in ready <==> id in Elements(ready);
    }
  }

  lemma ToldAll(links: Links, done: set<string>, x: string, ready: seq<string>, left: map<string, set<string>>)
    requires x in ReadySet(links, done) && Told(links, done, x, Newer(links, x), ready, left)
    requires forall d <- Newer(links, x) :: d in links && d !in done + {x}
    ensures Elements(ready) == ReadySet(links, done + {x})
    ensures left == map id <- links :: Olds(links, id) - (done + {x})
  {
    ReadyAfter(links, done, x);
    hide ReadySet, Olds;
  }

  /** Tells the dependants of x, in order, that it is taken. */
  method Release(links: Links, ghost ordered: seq<string>, x: string, ready: seq<string>,
                 dependencies: map<string, set<string>>, dependants: set<string>)
    returns (nowReady: seq<string>, left: map<string, set<string>>)
    requires WellLinked(links) && Greedy(links, ordered)
    requires x in ReadySet(links, Elements(ordered)) && dependants == Newer(links, x)
    requires Ascending(ready) && Elements(ready) == ReadySet(links, Elements(ordered)) - {x}
    requires dependencies == map id <- links :: Olds(links, id) - Elements(ordered)
    ensures Ascending(nowReady) && Elements(nowReady) == ReadySet(links, Elements(ordered) + {x})
    ensures left == map id <- links :: Olds(links, id) - (Elements(ordered) + {x})
  {
    ghost var done := Elements(ordered);
    nowReady, left := ready, dependencies;
    ToldNone(links, done, x, ready, dependencies);
    var newer := Sort(dependants);
    AscendingIsDistinct(newer);
    forall d <- newer ensures d in Newer(links, x) && d in links && d !in done + {x} && x in Olds(links, d) {
      assert d in Elements(newer);
      NewerIsUntaken(links, ordered, x, d);
    }
    assert forall d <- Newer(links, x) :: d in newer;
    hide WellLinked, Greedy, Olds, Newer, ReadySet, Told;
    for n := 0 to |newer|
      invariant Told(links, done, x, Elements(newer[..n]), nowReady, left)
    {
      assert Elements(newer[..n + 1]) == Elements(newer[..n]) + {newer[n]};
      nowReady, left := Tell(links, done, x, Elements(newer[..n]), newer[n], nowReady, left);
    }
    assert newer[..|newer|] == newer;
    ToldAll(links, done, x, nowReady, left);
    ToldAscending(links, done, x, Elements(newer), nowReady, left);
  }

  lemma ToldAscending(links: Links, done: set<string>, x: string, told: set<string>, ready: seq<string>, left: map<string, set<string>>)
    requires x in links && Told(links, done, x, told, ready, left)
    ensures Ascending(ready)
  {
  }

  /** ordered was chosen greedily, ready holds the candidates that are left, and dependencies what the others wait for. */
  ghost predicate Planning(links: Links, ordered: seq<string>, ready: seq<string>, dependencies: map<string, set<string>>) {
    && Greedy(links, ordered)
    && Ascending(ready) && Elements(ready) == ReadySet(links, Elements(ordered))
    && dependencies == map id <- links :: Olds(links, id) - Elements(ordered)
  }

  method Take(links: Links, ordered: seq<string>, ready: seq<string>, dependencies: map<string, set<string>>,
              dependants: map<string, set<string>>)
    returns (ordered': seq<string>, ready': seq<string>, dependencies': map<string, set<string>>)
    requires WellLinked(links) && Planning(links, ordered, ready, dependencies) && ready != []
    requires dependants == map id <- links :: Newer(links, id)
    ensures Planning(links, ordered', ready', dependencies')
    ensures |links.Keys - Elements(ordered')| < |links.Keys - Elements(ordered)|
  {
    hide WellLinked, Greedy, Olds, Newer, ReadySet;
    var x := ready[0];
    HeadIsLeast(ready);
    TakesOneMore(links, ordered, x);
    ordered' := ordered + [x];
    ready', dependencies' := Release(links, ordered, x, ready[1..], dependencies, dependants[x]);
  }

  /** Plans the import. It refuses a post whose link is no id of another post, or a cycle, naming exactly the
      facts that cannot be ordered; otherwise its answer is the least of all orders that put every superseded
      fact before its replacement. */
  method PlanImport(posts: seq<string>, links: Links) returns (plan: Plan)
    requires Distinct(posts) && Elements(posts) == links.Keys
    ensures forall id <- posts :: id in Elements(posts)
    ensures match plan
            case Planned(order) => WellLinked(links) && !HasCycle(links) && IsLeastOrder(links, order)
            case Refused(Cycle(stuck)) =>
              && WellLinked(links) && HasCycle(links)
              && Ascending(stuck) && forall id :: id in stuck <==> id in links && BehindCycle(links, id)
            case Refused(e) => !WellLinked(links) && FirstLinkError(links, posts, e)
  {
    hide WellLinked, HasCycle, IsLeastOrder, BehindCycle, Planning, Gathered, Olds, ReadySet, FirstLinkError;
    var error, dependencies, dependants := DependenciesOf(posts, links);
    if error.Some? {
      return Refused(error.value);
    }
    GatheredAll(links, dependencies, dependants);
    var ready := Sort(set id <- dependencies | dependencies[id] == {});
    var ordered: seq<string> := [];
    while ready != []
      invariant Planning(links, ordered, ready, dependencies)
      decreases |links.Keys - Elements(ordered)|
    {
      ordered, ready, dependencies := Take(links, ordered, ready, dependencies, dependants);
    }
    PlanningEnds(links, posts, ordered, dependencies);
    if |ordered| != |posts| {
      var stuck := Sort(set id <- dependencies | dependencies[id] != {});
      return Refused(Cycle(stuck));
    }
    return Planned(ordered);
  }

  lemma PlanningEnds(links: Links, posts: seq<string>, ordered: seq<string>, dependencies: map<string, set<string>>)
    requires WellLinked(links) && Planning(links, ordered, [], dependencies)
    requires Distinct(posts) && Elements(posts) == links.Keys
    ensures |ordered| == |posts| ==> !HasCycle(links) && IsLeastOrder(links, ordered)
    ensures |ordered| != |posts| ==>
              var stuck := Sorted(set id <- dependencies | dependencies[id] != {});
              HasCycle(links) && Ascending(stuck) && forall id :: id in stuck <==> id in links && BehindCycle(links, id)
  {
    hide WellLinked, HasCycle, IsLeastOrder, BehindCycle, Olds, ReadySet;
    NoElements<string>([]);
    GreedyIsClosed(links, ordered);
    DistinctSize(ordered);
    DistinctSize(posts);
    if |ordered| == |posts| {
      AllTaken(links, ordered);
    } else {
      StuckExactly(links, ordered, Sorted(set id <- dependencies | dependencies[id] != {}));
    }
  }

  lemma GatheredAll(links: Links, dependencies: map<string, set<string>>, dependants: map<string, set<string>>)
    requires Gathered(links, links.Keys, dependencies, dependants)
    ensures dependants == map id <- links :: Newer(links, id)
    ensures Planning(links, [], Sorted(set id <- dependencies | dependencies[id] == {}), dependencies)
  {
    NoElements<string>([]);
    forall id <- links ensures dependencies[id] == Olds(links, id) - Elements([]) {
      assert Olds(links, id) * links.Keys == Olds(links, id);
      assert Olds(links, id) - {} == Olds(links, id);
    }
    hide Gathered, Olds;
    NothingReady(links, dependencies);
  }

  lemma NothingReady(links: Links, dependencies: map<string, set<string>>)
    requires dependencies == map id <- links :: Olds(links, id) - Elements([])
    ensures (set id <- dependencies | dependencies[id] == {}) == ReadySet(links, Elements([]))
  {
    forall id <- links ensures dependencies[id] == {} <==> id in ReadySet(links, Elements([])) {
      NothingLeft(Olds(links, id), Elements([]));
    }
  }

  lemma TakesOneMore(links: Links, ordered: seq<string>, x: string)
    requires Greedy(links, ordered) && IsLeast(x, ReadySet(links, Elements(ordered)))
    ensures Greedy(links, ordered + [x]) && Elements(ordered + [x]) == Elements(ordered) + {x}
    ensures x in links && |links.Keys - (Elements(ordered) + {x})| < |links.Keys - Elements(ordered)|
  {
    GreedyGrows(links, ordered, x);
    assert links.Keys - (Elements(ordered) + {x}) == links.Keys - Elements(ordered) - {x};
  }

  lemma StuckExactly(links: Links, ordered: seq<string>, stuck: seq<string>)
    requires Greedy(links, ordered) && ReadySet(links, Elements(ordered)) == {} && |Elements(ordered)| != |links.Keys|
    requires Elements(stuck) == set id <- links | Olds(links, id) - Elements(ordered) != {}
    ensures HasCycle(links) && forall id :: id in stuck <==> id in links && BehindCycle(links, id)
  {
    GreedyIsClosed(links, ordered);
    forall id ensures id in stuck <==> id in links && BehindCycle(links, id) {
      assert id in stuck <==> id in Elements(stuck);
      assert id in ReadySet(links, Elements(ordered)) <==> id in links && id !in ordered && Olds(links, id) <= Elements(ordered);
      NothingLeft(Olds(links, id), Elements(ordered));
      if id in links {
        LeftOutExactly(links, ordered, id);
      }
    }
    assert Elements(ordered) != links.Keys;
    var id :| id in links && id !in ordered;
    StuckIsBehindCycle(links, ordered, id);
  }

  lemma AllTaken(links: Links, ordered: seq<string>)
    requires WellLinked(links) && Greedy(links, ordered) && |Elements(ordered)| == |links.Keys|
    ensures !HasCycle(links) && IsLeastOrder(links, ordered)
  {
    GreedyIsClosed(links, ordered);
    SubsetOfSameSize(Elements(ordered), links.Keys);
    GreedyIsOrder(links, ordered);
    forall p | IsOrder(links, p) && p != ordered ensures Precedes(ordered, p) {
      GreedyIsLeast(links, ordered, p);
    }
    if cycle :| IsCycle(links, cycle) {
      assert cycle[0] in Elements(ordered);
      var n := IndexOf(ordered, cycle[0]);
      CycleIsUntaken(links, ordered, cycle, 0, n);
    }
  }

  lemma NothingLeft(s: set<string>, t: set<string>)
    ensures s <= t <==> s - t == {}
  {
    if s - t == {} {
      forall x <- s ensures x in t {
        assert x !in s - t;
      }
    }
  }

  lemma SubsetOfSameSize(s: set<string>, t: set<string>)
    requires s <= t && |s| == |t|
    ensures s == t
  {
    assert |t - s| == |t| - |s|;
  }

  // ---- replacements -----------------------------------------------------------------------

  /** What supersedes_map holds for one id; a missing row reads as no rows. */
  ghost function ReplacedIn(links: Links, newer: string): seq<string> {
    Sorted(if newer == "" then {} else Olds(links, newer))
  }

  ghost predicate FoundAll(links: Links, seen: set<string>, found: map<string, set<string>>) {
    forall newer :: (if newer in found then found[newer] else {}) == if newer == "" then {} else Olds(links, newer) * seen
  }

  lemma FindOne(links: Links, seen: set<string>, found: map<string, set<string>>, older: string)
    requires FoundAll(links, seen, found) && older in links && !links[older].Other?
    ensures !Truthy(links[older]) ==> FoundAll(links, seen + {older}, found)
    ensures Truthy(links[older]) ==>
              var newer := links[older].text;
              FoundAll(links, seen + {older}, found[newer := (if newer in found then found[newer] else {}) + {older}])
  {
  }

  lemma FindFalsy(links: Links, seen: set<string>, found: map<string, set<string>>, older: string)
    requires FoundAll(links, seen, found) && older in links && links[older].Other?
    ensures FoundAll(links, seen + {older}, found)
  {
  }

  method SortValues(found: map<string, set<string>>) returns (result: map<string, seq<string>>)
    ensures result == map newer <- found :: Sorted(found[newer])
  {
    result := map[];
    var rest := found.Keys;
    while rest != {}
      invariant rest <= found.Keys && result.Keys == found.Keys - rest
      invariant forall newer <- result :: result[newer] == Sorted(found[newer])
      decreases |rest|
    {
      var newer :| newer in rest;
      rest := rest - {newer};
      var ids := Sort(found[newer]);
      result := result[newer := ids];
    }
  }

  /** Collects the superseded ids of each replacement, in order. */
  method SupersedesMap(posts: seq<string>, links: Links) returns (r: Result<map<string, seq<string>>>)
    requires Distinct(posts) && Elements(posts) == links.Keys
    ensures forall id <- posts :: id in Elements(posts)
    ensures r.Err? <==> exists id <- links :: links[id].Other? && links[id].truthy
    ensures r.Ok? ==> forall newer :: (if newer in r.value then r.value[newer] else []) == ReplacedIn(links, newer)
  {
    assert forall id <- posts :: id in Elements(posts);
    var found: map<string, set<string>> := map[];
    hide FoundAll;
    FindNone(links);
    for n := 0 to |posts|
      invariant forall j :: 0 <= j < n ==> !(links[posts[j]].Other? && links[posts[j]].truthy)
      invariant FoundAll(links, Elements(posts[..n]), found)
    {
      var older := posts[n];
      assert Elements(posts[..n + 1]) == Elements(posts[..n]) + {older} && older in Elements(posts);
      var raw := links[older];
      if raw.Other? {
        FindFalsy(links, Elements(posts[..n]), found, older);
      } else {
        FindOne(links, Elements(posts[..n]), found, older);
      }
      if Truthy(raw) {
        if raw.Other? {
          return Err(ValueError);
        }
        found := found[raw.text := (if raw.text in found then found[raw.text] else {}) + {older}];
      }
    }
    assert posts[..|posts|] == posts;
    forall id <- links ensures !(links[id].Other? && links[id].truthy) {
      assert id in Elements(posts);
    }
    var result := SortValues(found);
    FoundIsReplaced(links, found, result);
    return Ok(result);
  }

  lemma FindNone(links: Links)
    ensures FoundAll(links, Elements([]), map[])
  {
    NoElements<string>([]);
  }

  lemma FoundIsReplaced(links: Links, found: map<string, set<string>>, result: map<string, seq<string>>)
    requires FoundAll(links, links.Keys, found) && result == map newer <- found :: Sorted(found[newer])
    ensures forall newer :: (if newer in result then result[newer] else []) == ReplacedIn(links, newer)
  {
    forall newer ensures (if newer in result then result[newer] else []) == ReplacedIn(links, newer) {
      assert Olds(links, newer) * links.Keys == Olds(links, newer);
      NoElements(Sorted({}));
    }
  }
}
