/** Strings ordered by code points, and the sorted form of a set of them. */
module Ordering {
  predicate Below(a: string, b: string) {
    b != "" && (a == "" || a[0] < b[0] || (a[0] == b[0] && Below(a[1..], b[1..])))
  }

  lemma {:induction false} BelowIsTotal(a: string, b: string)
    ensures !(Below(a, b) && Below(b, a)) && (a == b ==> !Below(a, b))
    ensures a != b ==> Below(a, b) || Below(b, a)
  {
    if a != "" && b != "" {
      BelowIsTotal(a[1..], b[1..]);
      if a[0] == b[0] {
        assert a == [a[0]] + a[1..] && b == [b[0]] + b[1..];
      }
    }
  }

  lemma {:induction false} BelowIsTransitive(a: string, b: string, c: string)
    requires Below(a, b) && Below(b, c)
    ensures Below(a, c)
  {
    if a != "" && a[0] == b[0] == c[0] {
      BelowIsTransitive(a[1..], b[1..], c[1..]);
    }
  }

  /** One string is below another if it is a proper prefix of it or has the smaller character where they first differ. */
  lemma {:induction false} BelowExactly(a: string, b: string)
    ensures Below(a, b) <==> exists i :: 0 <= i <= |a| && i < |b| && a[..i] == b[..i] && (i == |a| || a[i] < b[i])
  {
    if a == "" {
      assert b != "" ==> a[..0] == b[..0];
    } else if b != "" && a[0] == b[0] {
      BelowExactly(a[1..], b[1..]);
      if i :| 0 <= i <= |a| && i < |b| && a[..i] == b[..i] && (i == |a| || a[i] < b[i]) {
        assert i > 0;
        assert a[1..][..i - 1] == a[..i][1..] && b[1..][..i - 1] == b[..i][1..];
      }
      if i :| 0 <= i <= |a[1..]| && i < |b[1..]| && a[1..][..i] == b[1..][..i] && (i == |a[1..]| || a[1..][i] < b[1..][i]) {
        assert a[..i + 1] == [a[0]] + a[1..][..i] && b[..i + 1] == [b[0]] + b[1..][..i];
      }
    } else if b != "" {
      assert a[..0] == b[..0];
      assert forall i :: 0 < i <= |a| && i < |b| ==> a[..i][0] != b[..i][0];
    }
  }

  function Elements<T(==)>(q: seq<T>): set<T> {
    set x <- q
  }

  ghost predicate Distinct<T>(q: seq<T>) {
    forall i, j :: 0 <= i < j < |q| ==> q[i] != q[j]
  }

  ghost predicate Ascending(q: seq<string>) {
    forall i, j :: 0 <= i < j < |q| ==> Below(q[i], q[j])
  }

  ghost predicate IsLeast(x: string, s: set<string>) {
    x in s && forall y <- s :: y == x || Below(x, y)
  }

  lemma {:induction false} HasLeast(s: set<string>)
    requires s != {}
    ensures exists x :: IsLeast(x, s)
    decreases |s|
  {
    var y :| y in s;
    if s == {y} {
      assert IsLeast(y, s);
    } else {
      HasLeast(s - {y});
      var x :| IsLeast(x, s - {y});
      BelowIsTotal(x, y);
      if Below(y, x) {
        forall z <- s ensures z == y || Below(y, z) {
          if z != y && z != x {
            BelowIsTransitive(y, x, z);
          }
        }
        assert IsLeast(y, s);
      } else {
        assert IsLeast(x, s);
      }
    }
  }

  lemma PrependLeast(x: string, s: set<string>, rest: seq<string>)
    requires IsLeast(x, s) && Ascending(rest) && Elements(rest) == s - {x}
    ensures Ascending([x] + rest) && Elements([x] + rest) == s
  {
    hide Below;
    forall j | 0 <= j < |rest| ensures Below(x, rest[j]) {
      assert rest[j] in Elements(rest);
    }
    assert Elements([x] + rest) == {x} + Elements(rest);
  }

  ghost function Sorted(s: set<string>): (q: seq<string>)
    ensures Ascending(q) && Elements(q) == s
    decreases |s|
  {
    if s == {} then []
    else
      HasLeast(s);
      var x :| IsLeast(x, s);
      PrependLeast(x, s, Sorted(s - {x}));
      [x] + Sorted(s - {x})
  }

  lemma LeastIsUnique(x: string, y: string, s: set<string>)
    requires IsLeast(x, s) && IsLeast(y, s)
    ensures x == y
  {
    BelowIsTotal(x, y);
  }

  lemma NoElements<T>(q: seq<T>)
    ensures Elements(q) == {} <==> q == []
  {
    assert q != [] ==> q[0] in Elements(q);
  }

  /** A set has one ascending form. */
  lemma {:induction false} SortedIsUnique(p: seq<string>, q: seq<string>)
    requires Ascending(p) && Ascending(q) && Elements(p) == Elements(q)
    ensures p == q
    decreases |p|
  {
    NoElements(p);
    NoElements(q);
    if p != [] {
      HeadIsLeast(p);
      HeadIsLeast(q);
      LeastIsUnique(p[0], q[0], Elements(p));
      SortedIsUnique(p[1..], q[1..]);
    }
  }

  lemma HeadIsLeast(p: seq<string>)
    requires Ascending(p) && p != []
    ensures IsLeast(p[0], Elements(p)) && Ascending(p[1..]) && Elements(p[1..]) == Elements(p) - {p[0]}
  {
    BelowIsTotal(p[0], p[0]);
    assert forall x :: x in p[1..] ==> Below(p[0], x);
  }

  lemma AscendingIsDistinct(q: seq<string>)
    requires Ascending(q)
    ensures Distinct(q)
  {
    forall i, j | 0 <= i < j < |q| ensures q[i] != q[j] {
      BelowIsTotal(q[i], q[j]);
    }
  }

  lemma {:induction false} DistinctSize<T>(q: seq<T>)
    requires Distinct(q)
    ensures |Elements(q)| == |q|
  {
    if q != [] {
      var n := |q| - 1;
      DistinctSize(q[..n]);
      assert Elements(q) == Elements(q[..n]) + {q[n]};
    }
  }

  method Least(s: set<string>) returns (x: string)
    requires s != {}
    ensures IsLeast(x, s)
  {
    x :| x in s;
    var rest := s - {x};
    while rest != {}
      invariant rest <= s && IsLeast(x, s - rest)
      decreases |rest|
    {
      var y :| y in rest;
      rest := rest - {y};
      BelowIsTotal(x, y);
      if Below(y, x) {
        forall z <- s - rest ensures z == y || Below(y, z) {
          if z != y && z != x {
            BelowIsTransitive(y, x, z);
          }
        }
        x := y;
      }
    }
    assert s - rest == s;
  }

  method Sort(s: set<string>) returns (q: seq<string>)
    ensures q == Sorted(s)
  {
    q := [];
    var rest := s;
    while rest != {}
      invariant rest <= s && Elements(q) == s - rest && Ascending(q)
      invariant forall x <- q, y <- rest :: Below(x, y)
      decreases |rest|
    {
      var x := Least(rest);
      rest := rest - {x};
      assert Elements(q + [x]) == Elements(q) + {x};
      q := q + [x];
    }
    SortedIsUnique(q, Sorted(s));
  }
}
