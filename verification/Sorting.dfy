/** Stable insertion by a comparison, and when a sorted listing is determined by its members. */
module Sorting {

  ghost predicate Total<T(!new)>(le: (T, T) -> bool) {
    (forall x, y :: le(x, y) || le(y, x)) && forall x, y, z :: le(x, y) && le(y, z) ==> le(x, z)
  }

  ghost predicate Ordered<T(!new)>(le: (T, T) -> bool, s: seq<T>) {
    forall i, j :: 0 <= i < j < |s| ==> le(s[i], s[j])
  }

  /** Place `x` before the first later element it does not exceed. */
  function Insert<T>(le: (T, T) -> bool, x: T, s: seq<T>): seq<T> {
    if s == [] || le(x, s[0]) then [x] + s else [s[0]] + Insert(le, x, s[1..])
  }

  function Sort<T>(le: (T, T) -> bool, s: seq<T>): seq<T> {
    if s == [] then [] else Insert(le, s[0], Sort(le, s[1..]))
  }

  /** Where `Insert` places `x`. */
  function Place<T>(le: (T, T) -> bool, x: T, s: seq<T>): (p: nat)
    ensures p <= |s|
  {
    if s == [] || le(x, s[0]) then 0 else 1 + Place(le, x, s[1..])
  }

  lemma {:induction false} InsertAtPlace<T>(le: (T, T) -> bool, x: T, s: seq<T>)
    ensures var p := Place(le, x, s); Insert(le, x, s) == s[..p] + [x] + s[p..]
  {
    if s != [] && !le(x, s[0]) {
      InsertAtPlace(le, x, s[1..]);
    }
  }

  lemma {:induction false} InsertKeepsMembers<T(!new)>(le: (T, T) -> bool, x: T, s: seq<T>)
    ensures multiset(Insert(le, x, s)) == multiset{x} + multiset(s)
  {
    if s != [] && !le(x, s[0]) {
      InsertKeepsMembers(le, x, s[1..]);
      assert s == [s[0]] + s[1..];
    }
  }

  lemma {:induction false} InsertKeepsOrder<T(!new)>(le: (T, T) -> bool, x: T, s: seq<T>)
    requires Total(le) && Ordered(le, s)
    ensures Ordered(le, Insert(le, x, s))
  {
    if s != [] && !le(x, s[0]) {
      var r := Insert(le, x, s[1..]);
      InsertKeepsOrder(le, x, s[1..]);
      InsertKeepsMembers(le, x, s[1..]);
      forall j | 0 <= j < |r|
        ensures le(s[0], r[j])
      {
        assert r[j] in multiset(r);
        assert r[j] == x || r[j] in s[1..];
      }
    }
  }

  lemma {:induction false} SortSorts<T(!new)>(le: (T, T) -> bool, s: seq<T>)
    requires Total(le)
    ensures Ordered(le, Sort(le, s)) && multiset(Sort(le, s)) == multiset(s)
  {
    if s != [] {
      SortSorts(le, s[1..]);
      InsertKeepsOrder(le, s[0], Sort(le, s[1..]));
      InsertKeepsMembers(le, s[0], Sort(le, s[1..]));
      assert s == [s[0]] + s[1..];
    }
  }

  lemma HeadsAgree<T(!new)>(le: (T, T) -> bool, a: seq<T>, b: seq<T>)
    requires (forall x :: le(x, x)) && Ordered(le, a) && Ordered(le, b) && multiset(a) == multiset(b) && a != []
    ensures b != [] && le(a[0], b[0]) && le(b[0], a[0])
  {
    assert a[0] in multiset(b);
    assert b != [] && b[0] in multiset(a);
    var i :| 0 <= i < |b| && b[i] == a[0];
    var j :| 0 <= j < |a| && a[j] == b[0];
  }

  lemma TailMembers<T>(s: seq<T>)
    requires s != []
    ensures multiset(s[1..]) == multiset(s) - multiset{s[0]}
  {
    assert s == [s[0]] + s[1..];
  }

  /** Where ties are equalities, members determine the sorted listing. */
  lemma {:induction false} OrderedUnique<T(!new)>(le: (T, T) -> bool, a: seq<T>, b: seq<T>)
    requires (forall x :: le(x, x)) && Ordered(le, a) && Ordered(le, b) && multiset(a) == multiset(b)
    requires forall x, y :: x in a && y in b && le(x, y) && le(y, x) ==> x == y
    ensures a == b
  {
    if a == [] {
      assert |multiset(b)| == |b|;
    } else {
      HeadsAgree(le, a, b);
      assert a[0] in a && b[0] in b;
      TailMembers(a);
      TailMembers(b);
      OrderedUnique(le, a[1..], b[1..]);
    }
  }

  /** So the order of the input does not matter. */
  lemma SortIgnoresOrder<T(!new)>(le: (T, T) -> bool, a: seq<T>, b: seq<T>)
    requires Total(le) && multiset(a) == multiset(b)
    requires forall x, y :: x in a && y in b && le(x, y) && le(y, x) ==> x == y
    ensures Sort(le, a) == Sort(le, b)
  {
    SortSorts(le, a);
    SortSorts(le, b);
    var p, q := Sort(le, a), Sort(le, b);
    forall x, y | x in p && y in q && le(x, y) && le(y, x)
      ensures x == y
    {
      assert x in multiset(a) && y in multiset(b);
    }
    OrderedUnique(le, p, q);
  }
}
