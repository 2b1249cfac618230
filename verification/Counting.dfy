/** Filtering and counting the elements of a sequence. */
module Counting {
  function Where<T(!new)>(q: seq<T>, p: T -> bool): (kept: seq<T>)
    ensures forall x :: x in kept <==> x in q && p(x)
  {
    if q == [] then [] else Where(q[..|q| - 1], p) + (if p(q[|q| - 1]) then [q[|q| - 1]] else [])
  }

  function Count<T(!new)>(q: seq<T>, p: T -> bool): nat {
    if q == [] then 0 else Count(q[..|q| - 1], p) + (if p(q[|q| - 1]) then 1 else 0)
  }

  lemma {:induction false} WhereIsCounted<T(!new)>(q: seq<T>, p: T -> bool)
    ensures |Where(q, p)| == Count(q, p) <= |q|
  {
    if q != [] {
      WhereIsCounted(q[..|q| - 1], p);
    }
  }

  lemma {:induction false} CountMonotone<T(!new)>(q: seq<T>, p: T -> bool, p': T -> bool)
    requires forall x <- q :: p(x) ==> p'(x)
    ensures Count(q, p) <= Count(q, p')
  {
    if q != [] {
      CountMonotone(q[..|q| - 1], p, p');
    }
  }

  lemma {:induction false} AllCounted<T(!new)>(q: seq<T>, p: T -> bool)
    requires forall x <- q :: p(x)
    ensures Count(q, p) == |q|
  {
    if q != [] {
      AllCounted(q[..|q| - 1], p);
    }
  }

  lemma {:induction false} CountSame<T(!new)>(q: seq<T>, p: T -> bool, p': T -> bool)
    requires forall x <- q :: p(x) == p'(x)
    ensures Count(q, p) == Count(q, p')
  {
    if q != [] {
      CountSame(q[..|q| - 1], p, p');
    }
  }

  function Both<T(!new)>(p: T -> bool, p': T -> bool): T -> bool {
    (x: T) => p(x) && p'(x)
  }

  /** Counting inside a filtered sequence. */
  lemma {:induction false} CountWhere<T(!new)>(q: seq<T>, p: T -> bool, p': T -> bool)
    ensures Count(Where(q, p), p') == Count(q, Both(p, p'))
  {
    if q != [] {
      var rest, last := q[..|q| - 1], q[|q| - 1];
      CountWhere(rest, p, p');
      if p(last) {
        var kept := Where(rest, p);
        assert (kept + [last])[..|kept|] == kept;
      } else {
        assert Where(rest, p) + [] == Where(rest, p);
      }
    }
  }

  lemma CountOneMore<T(!new)>(q: seq<T>, n: nat, p: T -> bool)
    requires n < |q|
    ensures Count(q[..n + 1], p) == Count(q[..n], p) + if p(q[n]) then 1 else 0
  {
    assert q[..n + 1][..n] == q[..n];
  }

  /** The places of the elements that pass. */
  ghost function Places<T(!new)>(q: seq<T>, p: T -> bool): set<nat> {
    set i: nat | i < |q| && p(q[i])
  }

  lemma {:induction false} CountIsPlaces<T(!new)>(q: seq<T>, p: T -> bool)
    ensures Count(q, p) == |Places(q, p)|
  {
    if q != [] {
      var n := |q| - 1;
      CountIsPlaces(q[..n], p);
      assert Places(q, p) == Places(q[..n], p) + if p(q[n]) then {n} else {};
    }
  }

  method CountOf<T(!new)>(q: seq<T>, p: T -> bool) returns (count: nat)
    ensures count == Count(q, p)
  {
    count := 0;
    for n := 0 to |q|
      invariant count == Count(q[..n], p)
    {
      CountOneMore(q, n, p);
      if p(q[n]) {
        count := count + 1;
      }
    }
    assert q[..|q|] == q;
  }
}
