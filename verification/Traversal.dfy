/** Pre-order traversal of a descending tree of visits, and the stack that walks it. */
module Traversal {
  import opened Prelude

  /** Every visit below another has a smaller rank, so the tree is finite. */
  ghost predicate Descends<V(!new)>(below: V -> seq<V>, rank: V -> nat) {
    forall v, c :: c in below(v) ==> rank(c) < rank(v)
  }

  /** A visit, then everything below it. */
  ghost function Tree<V(!new)>(below: V -> seq<V>, rank: V -> nat, v: V): seq<V>
    requires Descends(below, rank)
    decreases rank(v), 0
  {
    if below(v) == [] then [v] else
      assert rank(below(v)[0]) < rank(v);
      [v] + Preorder(below, rank, rank(v) - 1, below(v))
  }

  /** The recursive traversal of a list of visits. */
  ghost function Preorder<V(!new)>(below: V -> seq<V>, rank: V -> nat, bound: nat, visits: seq<V>): seq<V>
    requires Descends(below, rank) && forall v :: v in visits ==> rank(v) <= bound
    decreases bound, |visits|
  {
    if visits == [] then []
    else Tree(below, rank, visits[0]) + Preorder(below, rank, bound, visits[1..])
  }

  function Total<V>(cost: V -> nat, s: seq<V>): nat {
    if s == [] then 0 else cost(s[0]) + Total(cost, s[1..])
  }

  lemma {:induction false} TotalAppend<V>(cost: V -> nat, a: seq<V>, b: seq<V>)
    ensures Total(cost, a + b) == Total(cost, a) + Total(cost, b)
  {
    if a == [] {
      assert a + b == b;
    } else {
      assert (a + b)[1..] == a[1..] + b;
      TotalAppend(cost, a[1..], b);
    }
  }

  lemma {:induction false} PreorderIgnoresBound<V(!new)>(
    below: V -> seq<V>, rank: V -> nat, m: nat, n: nat, visits: seq<V>)
    requires Descends(below, rank) && forall v :: v in visits ==> rank(v) <= m && rank(v) <= n
    ensures Preorder(below, rank, m, visits) == Preorder(below, rank, n, visits)
    decreases |visits|
  {
    if visits != [] {
      PreorderIgnoresBound(below, rank, m, n, visits[1..]);
    }
  }

  lemma {:induction false} PreorderAppend<V(!new)>(below: V -> seq<V>, rank: V -> nat, bound: nat, a: seq<V>, b: seq<V>)
    requires Descends(below, rank) && forall v :: v in a + b ==> rank(v) <= bound
    ensures (forall v :: v in a ==> v in a + b) && (forall v :: v in b ==> v in a + b)
    ensures Preorder(below, rank, bound, a + b) == Preorder(below, rank, bound, a) + Preorder(below, rank, bound, b)
    decreases |a|
  {
    if a == [] {
      assert a + b == b;
    } else {
      assert (a + b)[1..] == a[1..] + b;
      PreorderAppend(below, rank, bound, a[1..], b);
      var tree, rest := Tree(below, rank, a[0]), Preorder(below, rank, bound, a[1..]);
      var last := Preorder(below, rank, bound, b);
      assert tree + (rest + last) == (tree + rest) + last;
    }
  }

  /** Taking the first visit and queueing what lies below it leaves the rest of the pre-order. */
  lemma PreorderStep<V(!new)>(below: V -> seq<V>, rank: V -> nat, bound: nat, visits: seq<V>)
    requires Descends(below, rank) && visits != [] && forall v :: v in visits ==> rank(v) <= bound
    ensures forall v :: v in below(visits[0]) + visits[1..] ==> rank(v) <= bound
    ensures Preorder(below, rank, bound, visits) ==
            [visits[0]] + Preorder(below, rank, bound, below(visits[0]) + visits[1..])
  {
    var v, rest := visits[0], visits[1..];
    assert rank(v) <= bound;
    forall c | c in below(v) + rest
      ensures rank(c) <= bound
    {
    }
    PreorderAppend(below, rank, bound, below(v), rest);
    if below(v) != [] {
      assert rank(below(v)[0]) < rank(v);
      PreorderIgnoresBound(below, rank, bound, rank(v) - 1, below(v));
    }
  }

  /** What is still queued is no more than what is still to be visited. */
  lemma {:induction false} QueuedWithinPreorder<V(!new)>(
    below: V -> seq<V>, rank: V -> nat, bound: nat, cost: V -> nat, visits: seq<V>)
    requires Descends(below, rank) && forall v :: v in visits ==> rank(v) <= bound
    ensures |visits| <= |Preorder(below, rank, bound, visits)|
    ensures Total(cost, visits) <= Total(cost, Preorder(below, rank, bound, visits))
    decreases |visits|
  {
    if visits != [] {
      var v, rest := visits[0], Preorder(below, rank, bound, visits[1..]);
      var tree := Tree(below, rank, v);
      assert tree == [v] + tree[1..];
      QueuedWithinPreorder(below, rank, bound, cost, visits[1..]);
      TotalAppend(cost, tree, rest);
    }
  }

  // ----- A stack, top last

  function Reversed<V>(s: seq<V>): (r: seq<V>)
    ensures |r| == |s|
  {
    if s == [] then [] else Reversed(s[1..]) + [s[0]]
  }

  lemma {:induction false} ReversedAppend<V>(a: seq<V>, b: seq<V>)
    ensures Reversed(a + b) == Reversed(b) + Reversed(a)
  {
    if a == [] {
      assert a + b == b;
    } else {
      assert (a + b)[1..] == a[1..] + b;
      ReversedAppend(a[1..], b);
    }
  }

  lemma {:induction false} ReversedTwice<V>(s: seq<V>)
    ensures Reversed(Reversed(s)) == s
  {
    if s != [] {
      ReversedTwice(s[1..]);
      ReversedAppend(Reversed(s[1..]), [s[0]]);
    }
  }

  lemma {:induction false} ReversedTotal<V>(cost: V -> nat, s: seq<V>)
    ensures Total(cost, Reversed(s)) == Total(cost, s)
  {
    if s != [] {
      ReversedTotal(cost, s[1..]);
      TotalAppend(cost, Reversed(s[1..]), [s[0]]);
    }
  }

  lemma {:induction false} ReversedLast<V>(waiting: seq<V>, top: V)
    ensures Reversed(waiting + [top]) == [top] + Reversed(waiting)
  {
    var stack := waiting + [top];
    if waiting != [] {
      assert stack[1..] == waiting[1..] + [top];
      ReversedLast(waiting[1..], top);
    }
  }

  /** Popping the top of the stack takes the first visit of the remaining order. */
  lemma {:induction false} ReversedPop<V>(stack: seq<V>)
    requires stack != []
    ensures Reversed(stack) == [stack[|stack| - 1]] + Reversed(stack[..|stack| - 1])
  {
    var top, waiting := stack[|stack| - 1], stack[..|stack| - 1];
    assert stack == waiting + [top];
    ReversedLast(waiting, top);
  }

  /** Pushing a list in reverse puts it ahead of what was waiting. */
  lemma ReversedPush<V>(waiting: seq<V>, wanted: seq<V>)
    ensures Reversed(waiting + Reversed(wanted)) == wanted + Reversed(waiting)
  {
    ReversedAppend(waiting, Reversed(wanted));
    ReversedTwice(wanted);
  }

  // ----- The first failure of a traversal

  /** The first visit, from the i-th on, that a check refuses after those before it. */
  ghost function FirstFailure<V(!new), E(!new)>(check: (seq<V>, V) -> Option<E>, all: seq<V>, i: nat): Option<E>
    requires i <= |all|
    decreases |all| - i
  {
    if i == |all| then None
    else if check(all[..i], all[i]).Some? then check(all[..i], all[i])
    else FirstFailure(check, all, i + 1)
  }

  /** A traversal has no failure exactly when every prefix of it leaves room for the next visit. */
  lemma {:induction false} NoFailureIff<V(!new), E(!new)>(check: (seq<V>, V) -> Option<E>, all: seq<V>, i: nat)
    requires i <= |all|
    ensures FirstFailure(check, all, i).None? <==> forall k :: i <= k < |all| ==> check(all[..k], all[k]).None?
    decreases |all| - i
  {
    if i < |all| {
      NoFailureIff(check, all, i + 1);
    }
  }
}
