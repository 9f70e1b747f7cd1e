/** Shared failure types and the ascending order in which the server walks its ordered maps. */
module Prelude {

  datatype Option<+T> = None | Some(value: T)

  datatype Result<+T, +E> = Ok(value: T) | Err(error: E)

  function Max(x: int, y: int): int { if x < y then y else x }

  function Smaller(x: int, y: int): int { if x < y then x else y }

  function Clamp(x: int, low: int, high: int): int { Max(low, Smaller(x, high)) }

  lemma Regroup<T>(a: seq<T>, b: seq<T>, c: seq<T>)
    ensures a + (b + c) == a + b + c
  {
  }

  lemma SizeOfPart<T>(a: set<T>, b: set<T>)
    requires a <= b
    ensures |a| <= |b| && (|a| == |b| ==> a == b)
  {
    assert b == a + (b - a);
  }

  lemma LeastExists(s: set<nat>, x: nat)
    requires x in s
    ensures exists m :: m in s && forall y :: y in s ==> m <= y
    decreases x
  {
    if y :| y in s && y < x {
      LeastExists(s, y);
    }
  }

  function Least(s: set<nat>): (m: nat)
    requires s != {}
    ensures m in s && forall x :: x in s ==> m <= x
  {
    LeastExists(s, var x :| x in s; x);
    var m :| m in s && forall x :: x in s ==> m <= x;
    m
  }

  /** The members of a set in ascending order, as a `BTreeMap` or `BTreeSet` yields them. */
  function Ascending(s: set<nat>): (r: seq<nat>)
    ensures forall x :: x in r <==> x in s
    ensures forall i, j :: 0 <= i < j < |r| ==> r[i] < r[j]
  {
    if s == {} then [] else
      var m := Least(s);
      [m] + Ascending(s - {m})
  }

  function Elements<T>(s: seq<T>): set<T> { set x | x in s }

  lemma ElementsOfPrefix<T>(s: seq<T>, i: nat)
    requires i < |s|
    ensures Elements(s[..i + 1]) == Elements(s[..i]) + {s[i]}
  {
    assert s[..i + 1] == s[..i] + [s[i]];
  }

  lemma AscendingPrefix(s: set<nat>, k: nat)
    requires k < |Ascending(s)|
    ensures var r := Ascending(s);
            Elements(r[..k + 1]) == Elements(r[..k]) + {r[k]} && r[k] !in Elements(r[..k]) && r[k] in s
  {
    ElementsOfPrefix(Ascending(s), k);
  }

  lemma AscendingElements(s: set<nat>)
    ensures var r := Ascending(s); Elements(r[..0]) == {} && r[..|r|] == r && Elements(r) == s
  {
  }

  function Filter<T(!new)>(keep: T -> bool, s: seq<T>): (r: seq<T>)
    ensures forall x :: x in r <==> x in s && keep(x)
    ensures |r| <= |s|
  {
    if s == [] then [] else
      assert s == [s[0]] + s[1..];
      (if keep(s[0]) then [s[0]] else []) + Filter(keep, s[1..])
  }

  ghost predicate Increasing(s: seq<nat>) { forall i, j :: 0 <= i < j < |s| ==> s[i] < s[j] }

  lemma IncreasingTail(s: seq<nat>, x: nat)
    requires Increasing(s) && s != []
    ensures Increasing(s[1..]) && (x in s[1..] <==> x in s && x != s[0])
  {
    assert s == [s[0]] + s[1..];
  }

  /** Increasing listings of the same members are the same listing. */
  lemma {:induction false} IncreasingUnique(a: seq<nat>, b: seq<nat>)
    requires Increasing(a) && Increasing(b) && forall x: nat :: x in a <==> x in b
    ensures a == b
  {
    assert (a == [] || a[0] in a) && (b == [] || b[0] in b);
    if a != [] {
      forall x: nat
        ensures x in a[1..] <==> x in b[1..]
      {
        IncreasingTail(a, x);
        IncreasingTail(b, x);
      }
      IncreasingUnique(a[1..], b[1..]);
    }
  }

  lemma {:induction false} FilterIncreasing(keep: nat -> bool, s: seq<nat>)
    requires Increasing(s)
    ensures Increasing(Filter(keep, s))
  {
    if s != [] {
      var r := Filter(keep, s[1..]);
      FilterIncreasing(keep, s[1..]);
      forall j | 0 <= j < |r|
        ensures s[0] < r[j]
      {
        assert r[j] in s[1..];
      }
    }
  }

  ghost predicate Distinct<T(!new)>(s: seq<T>) {
    forall i, j :: 0 <= i < j < |s| ==> s[i] != s[j]
  }

  lemma {:induction false} FilterAppend<T(!new)>(keep: T -> bool, s: seq<T>, t: seq<T>)
    ensures Filter(keep, s + t) == Filter(keep, s) + Filter(keep, t)
  {
    if s == [] {
      assert s + t == t;
    } else {
      assert (s + t)[1..] == s[1..] + t;
      FilterAppend(keep, s[1..], t);
    }
  }

  lemma {:induction false} FilterAll<T(!new)>(keep: T -> bool, s: seq<T>)
    requires forall x :: x in s ==> keep(x)
    ensures Filter(keep, s) == s
  {
    if s != [] {
      assert s == [s[0]] + s[1..];
      FilterAll(keep, s[1..]);
    }
  }

  lemma {:induction false} FilterNone<T(!new)>(keep: T -> bool, s: seq<T>)
    requires forall x :: x in s ==> !keep(x)
    ensures Filter(keep, s) == []
  {
    if s != [] {
      assert s == [s[0]] + s[1..];
      FilterNone(keep, s[1..]);
    }
  }

  lemma {:induction false} FilterDistinct<T(!new)>(keep: T -> bool, s: seq<T>)
    requires Distinct(s)
    ensures Distinct(Filter(keep, s))
  {
    if s != [] {
      FilterDistinct(keep, s[1..]);
    }
  }

  lemma {:induction false} FilterMembers<T(!new)>(keep: T -> bool, a: seq<T>, w: T)
    ensures multiset(Filter(keep, a))[w] == if keep(w) then multiset(a)[w] else 0
  {
    if a != [] {
      FilterMembers(keep, a[1..], w);
      assert a == [a[0]] + a[1..];
    }
  }

  lemma FilterIgnoresOrder<T(!new)>(keep: T -> bool, a: seq<T>, b: seq<T>)
    requires multiset(a) == multiset(b)
    ensures multiset(Filter(keep, a)) == multiset(Filter(keep, b))
  {
    forall w: T
      ensures multiset(Filter(keep, a))[w] == multiset(Filter(keep, b))[w]
    {
      FilterMembers(keep, a, w);
      FilterMembers(keep, b, w);
    }
  }
}
