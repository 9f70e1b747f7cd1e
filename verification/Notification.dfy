/** Bounded notification traversal: an explicit-stack walk that refines a recursive pre-order. */
module Notification {
  import opened Prelude
  import opened Worlds
  import opened Traversal
  import opened Routing

  datatype Limits = Limits(entries: nat, bytes: nat, message: nat, recursion: int)

  // ----- The recursive traversal

  /** What each visit comes to: whether it is heard, what it delivers and where it leads. */
  datatype Routes = Routes(
    heard: Visit -> bool, own: Visit -> seq<Delivery>, below: Visit -> seq<Visit>, rank: Visit -> nat, bound: nat)

  ghost predicate Delivers(n: Routes, v: Visit) {
    n.own(v) == [] || (|n.own(v)| == 1 && n.own(v)[0].1 == v.document)
  }

  /** Ranks descend, a visit delivers at most its own document, and an unheard one nothing. */
  ghost predicate Sound(n: Routes) {
    Descends(n.below, n.rank) && (forall v :: n.rank(v) <= n.bound) && (forall v :: Delivers(n, v)) &&
    forall v :: !n.heard(v) ==> n.own(v) == [] && n.below(v) == []
  }

  type Web = n: Routes | Sound(n)
    witness Routes((v: Visit) => false, (v: Visit) => [], (v: Visit) => [], (v: Visit) => 0, 0)

  /** Every visit the recursive traversal makes, in pre-order. */
  ghost function Visits(n: Web, visits: seq<Visit>): seq<Visit> { Preorder(n.below, n.rank, n.bound, visits) }

  lemma VisitsStep(n: Web, visits: seq<Visit>)
    requires visits != []
    ensures Visits(n, visits) == [visits[0]] + Visits(n, n.below(visits[0]) + visits[1..])
  {
    PreorderStep(n.below, n.rank, n.bound, visits);
  }

  lemma QueuedWithinVisits(n: Web, visits: seq<Visit>)
    ensures |visits| <= |Visits(n, visits)| && Weight(visits) <= Weight(Visits(n, visits))
  {
    QueuedWithinPreorder(n.below, n.rank, n.bound, Size, visits);
  }

  function Delivered(n: Web, visits: seq<Visit>): seq<Delivery> {
    if visits == [] then []
    else Delivered(n, visits[..|visits| - 1]) + n.own(visits[|visits| - 1])
  }

  function Expanded(n: Web, visits: seq<Visit>): seq<Visit> {
    Filter(n.heard, visits)
  }

  function Size(v: Visit): nat { |v.document| }

  function Weight(visits: seq<Visit>): nat { Total(Size, visits) }

  function Bytes(entries: seq<Delivery>): nat {
    if entries == [] then 0 else Bytes(entries[..|entries| - 1]) + |entries[|entries| - 1].1|
  }

  // ----- Facts about deliveries

  lemma DeliveredGrows(n: Web, made: seq<Visit>, v: Visit)
    ensures Delivered(n, made + [v]) == Delivered(n, made) + n.own(v)
  {
    assert (made + [v])[..|made|] == made;
  }

  lemma OwnCosts(n: Web, v: Visit)
    ensures n.own(v) == [] || (|n.own(v)| == 1 && Bytes(n.own(v)) == |v.document|)
  {
    assert Delivers(n, v);
    if n.own(v) != [] {
      assert n.own(v)[..0] == [];
    }
  }

  lemma {:induction false} DeliveredCosts(n: Web, visits: seq<Visit>)
    ensures |Delivered(n, visits)| <= |visits|
    ensures Bytes(Delivered(n, visits)) <= Weight(visits)
  {
    if visits != [] {
      var made, v := visits[..|visits| - 1], visits[|visits| - 1];
      DeliveredCosts(n, made);
      assert visits == made + [v];
      TotalAppend(Size, made, [v]);
      BytesAppend(Delivered(n, made), n.own(v));
      OwnCosts(n, v);
    }
  }

  lemma {:induction false} BytesAppend(a: seq<Delivery>, b: seq<Delivery>)
    ensures Bytes(a + b) == Bytes(a) + Bytes(b)
  {
    if b == [] {
      assert a + b == a;
    } else {
      assert (a + b)[..|a + b| - 1] == a + b[..|b| - 1];
      BytesAppend(a, b[..|b| - 1]);
    }
  }

  /** Positions of the visits that deliver something. */
  ghost function Delivering(n: Web, visits: seq<Visit>): seq<nat> {
    if visits == [] then [] else
      Delivering(n, visits[..|visits| - 1]) + if n.own(visits[|visits| - 1]) != [] then [|visits| - 1] else []
  }

  lemma {:induction false} DeliveringExactly(n: Web, visits: seq<Visit>)
    ensures Increasing(Delivering(n, visits))
    ensures forall i: nat :: i in Delivering(n, visits) <==> i < |visits| && n.own(visits[i]) != []
  {
    if visits != [] {
      var before := Delivering(n, visits[..|visits| - 1]);
      DeliveringExactly(n, visits[..|visits| - 1]);
      assert forall k :: 0 <= k < |before| ==> before[k] in before;
    }
  }

  /** Deliveries follow the visits: one for each that delivers, in the order visited. */
  lemma {:induction false} DeliveredInOrder(n: Web, visits: seq<Visit>)
    ensures var at := Delivering(n, visits);
            |Delivered(n, visits)| == |at| &&
            forall k :: 0 <= k < |at| ==> at[k] < |visits| && n.own(visits[at[k]]) == [Delivered(n, visits)[k]]
  {
    if visits != [] {
      DeliveredInOrder(n, visits[..|visits| - 1]);
      OwnCosts(n, visits[|visits| - 1]);
    }
  }

  // ----- Budgets

  datatype SendError = EmbeddedNul | TraversalLimit | OutputLimit

  /** Room in every budget for the whole traversal, whatever order it is queued in. */
  ghost predicate Affordable(limits: Limits, existing: seq<Delivery>, visits: seq<Visit>) {
    |existing| + |visits| <= limits.entries && Bytes(existing) + Weight(visits) <= limits.bytes &&
    forall v :: v in visits ==> |v.document| <= limits.message
  }

  /** Queue visits under the entry and byte budgets shared with those already waiting. */
  method Queue(limits: Limits, waiting: seq<Visit>, wanted: seq<Visit>) returns (ok: bool)
    ensures ok <==>
            wanted == [] ||
            (|waiting| + |wanted| <= limits.entries && Weight(waiting) + Weight(wanted) <= limits.bytes)
  {
    TotalAppend(Size, waiting, wanted);
    var queued := Weight(waiting);
    for i := 0 to |wanted|
      invariant queued == Weight(waiting) + Weight(wanted[..i])
      invariant i > 0 ==> |waiting| + i <= limits.entries && queued <= limits.bytes
    {
      assert wanted[..i + 1] == wanted[..i] + [wanted[i]];
      TotalAppend(Size, wanted[..i], [wanted[i]]);
      queued := queued + |wanted[i].document|;
      if !(i + |waiting| < limits.entries && queued <= limits.bytes) {
        assert wanted == wanted[..i + 1] + wanted[i + 1..];
        TotalAppend(Size, wanted[..i + 1], wanted[i + 1..]);
        return false;
      }
    }
    assert wanted[..|wanted|] == wanted;
    return true;
  }

  // ----- One turn and its limits

  /**
   * Why a visit that delivers `own` and forwards to `wanted` fails after `staged`, with `count`
   * visits of `bytes` in all waiting behind it, or nothing.
   */
  ghost function TurnError(
    limits: Limits, existing: seq<Delivery>, staged: seq<Delivery>, own: seq<Delivery>, count: int, bytes: int,
    wanted: seq<Visit>, v: Visit): Option<SendError>
  {
    if |v.document| > limits.message then Some(OutputLimit)
    else if own != [] && (|existing| + |staged| + 1 > limits.entries ||
                          Bytes(existing) + Bytes(staged) + |v.document| > limits.bytes) then Some(OutputLimit)
    else if count + |wanted| > limits.entries then Some(TraversalLimit)
    else if wanted != [] && bytes + Weight(wanted) > limits.bytes then Some(TraversalLimit)
    else None
  }

  /** What one turn of the walk stages and queues, or exactly why it cannot. */
  method Turn(n: Web, limits: Limits, existing: seq<Delivery>, staged: seq<Delivery>, waiting: seq<Visit>, v: Visit)
    returns (r: Result<(seq<Delivery>, seq<Visit>), SendError>)
    requires n.heard(v)
    ensures var own, wanted := n.own(v), n.below(v);
            var error := TurnError(limits, existing, staged, own, |waiting|, Weight(waiting), wanted, v);
            r == if error.Some? then Err(error.value) else Ok((staged + own, waiting + Reversed(wanted)))
  {
    if !(|v.document| <= limits.message) {
      return Err(OutputLimit);
    }
    var own := n.own(v);
    if own != [] {
      if !(|staged| + |existing| < limits.entries && Bytes(existing) + Bytes(staged) + |v.document| <= limits.bytes) {
        return Err(OutputLimit);
      }
    }
    var wanted := n.below(v);
    var ok := Queue(limits, waiting, wanted);
    if !ok || |waiting + wanted| > limits.entries {
      return Err(TraversalLimit);
    }
    return Ok((staged + own, waiting + Reversed(wanted)));
  }

  // ----- When the whole walk fits

  function Fanout(n: Web): Visit -> nat { (v: Visit) => |n.below(v)| }

  function FanoutBytes(n: Web): Visit -> nat { (v: Visit) => Weight(n.below(v)) }

  /** Visits still queued once `made` have been taken: those started with or forwarded, less those taken. */
  function Queued(n: Web, start: seq<Visit>, made: seq<Visit>): int {
    |start| + Total(Fanout(n), made) - |made|
  }

  function QueuedBytes(n: Web, start: seq<Visit>, made: seq<Visit>): int {
    Weight(start) + Total(FanoutBytes(n), made) - Weight(made)
  }

  lemma QueuedStep(n: Web, start: seq<Visit>, made: seq<Visit>, v: Visit)
    ensures Queued(n, start, made + [v]) == Queued(n, start, made) - 1 + |n.below(v)|
    ensures QueuedBytes(n, start, made + [v]) == QueuedBytes(n, start, made) - |v.document| + Weight(n.below(v))
  {
    TotalAppend(Fanout(n), made, [v]);
    TotalAppend(FanoutBytes(n), made, [v]);
    TotalAppend(Size, made, [v]);
    assert [v][1..] == [];
  }

  /** Why visit `v` fails after the visits `made`, from the traversal alone. */
  ghost function VisitError(
    n: Web, limits: Limits, existing: seq<Delivery>, start: seq<Visit>, made: seq<Visit>, v: Visit): Option<SendError>
  {
    if !n.heard(v) then None
    else if |Expanded(n, made)| >= limits.entries then Some(TraversalLimit)
    else TurnError(limits, existing, Delivered(n, made), n.own(v), Queued(n, start, made) - 1,
                   QueuedBytes(n, start, made) - |v.document|, n.below(v), v)
  }

  /** The limits a walk from `start` checks at each visit. */
  ghost function Check(n: Web, limits: Limits, existing: seq<Delivery>, start: seq<Visit>)
    : (seq<Visit>, Visit) -> Option<SendError>
  {
    (made: seq<Visit>, v: Visit) => VisitError(n, limits, existing, start, made, v)
  }

  /** Why the traversal from `start` fails, if it does: its first visit that exceeds a limit. */
  ghost function WalkFailure(n: Web, limits: Limits, existing: seq<Delivery>, start: seq<Visit>): Option<SendError> {
    FirstFailure(Check(n, limits, existing, start), Visits(n, start), 0)
  }

  /** The message and the outbox have room for what visit `v` delivers after the visits `made`. */
  ghost predicate OutputFits(n: Web, limits: Limits, existing: seq<Delivery>, made: seq<Visit>, v: Visit) {
    |v.document| <= limits.message &&
    (n.own(v) != [] ==>
      |existing + Delivered(n, made + [v])| <= limits.entries &&
      Bytes(existing + Delivered(n, made + [v])) <= limits.bytes)
  }

  /** No more visits are heard than allowed, and those queued once `v` is taken fit the budgets. */
  ghost predicate TraversalFits(n: Web, limits: Limits, start: seq<Visit>, made: seq<Visit>, v: Visit) {
    |Expanded(n, made + [v])| <= limits.entries && Queued(n, start, made + [v]) <= limits.entries &&
    (n.below(v) != [] ==> QueuedBytes(n, start, made + [v]) <= limits.bytes)
  }

  /** The error of one visit, from what fits: too many visits, then output, then the queue. */
  lemma VisitErrorExactly(
    n: Web, limits: Limits, existing: seq<Delivery>, start: seq<Visit>, made: seq<Visit>, v: Visit)
    ensures VisitError(n, limits, existing, start, made, v) ==
            if !n.heard(v) then None
            else if |Expanded(n, made + [v])| > limits.entries then Some(TraversalLimit)
            else if !OutputFits(n, limits, existing, made, v) then Some(OutputLimit)
            else if !TraversalFits(n, limits, start, made, v) then Some(TraversalLimit) else None
  {
    QueuedStep(n, start, made, v);
    ExpandedGrows(n, made, v);
    DeliveredGrows(n, made, v);
    OwnCosts(n, v);
    BytesAppend(Delivered(n, made), n.own(v));
    BytesAppend(existing, Delivered(n, made + [v]));
  }

  ghost predicate Fits(n: Web, limits: Limits, existing: seq<Delivery>, start: seq<Visit>, made: seq<Visit>, v: Visit) {
    n.heard(v) ==> OutputFits(n, limits, existing, made, v) && TraversalFits(n, limits, start, made, v)
  }

  /** So a walk succeeds exactly when every visit of the recursive traversal fits after those before it. */
  lemma WalkSucceedsIff(n: Web, limits: Limits, existing: seq<Delivery>, start: seq<Visit>)
    ensures var all := Visits(n, start);
            WalkFailure(n, limits, existing, start).None? <==>
            forall k :: 0 <= k < |all| ==> Fits(n, limits, existing, start, all[..k], all[k])
  {
    var all, check := Visits(n, start), Check(n, limits, existing, start);
    NoFailureIff(check, all, 0);
    forall k | 0 <= k < |all|
      ensures check(all[..k], all[k]).None? <==> Fits(n, limits, existing, start, all[..k], all[k])
    {
      VisitErrorExactly(n, limits, existing, start, all[..k], all[k]);
    }
  }

  /** What a traversal that fits as a whole leaves room for at one visit. */
  lemma AffordableCosts(
    n: Web, limits: Limits, existing: seq<Delivery>, made: seq<Visit>, waiting: seq<Visit>, wanted: seq<Visit>,
    v: Visit)
    requires Affordable(limits, existing, made + [v] + Visits(n, wanted + Reversed(waiting)))
    ensures |v.document| <= limits.message && |existing| + |made| + 1 <= limits.entries
    ensures Bytes(existing) + Weight(made) + |v.document| <= limits.bytes
    ensures |waiting| + |wanted| <= limits.entries && Weight(waiting) + Weight(wanted) <= limits.bytes
  {
    var rest := Visits(n, wanted + Reversed(waiting));
    assert v in made + [v] + rest;
    TotalAppend(Size, made + [v], rest);
    TotalAppend(Size, made, [v]);
    assert [v][1..] == [];
    QueuedWithinVisits(n, wanted + Reversed(waiting));
    TotalAppend(Size, wanted, Reversed(waiting));
    ReversedTotal(Size, waiting);
  }

  /** Room in every budget for one visit, whether or not it delivers or forwards anything. */
  ghost predicate Roomy(
    limits: Limits, existing: seq<Delivery>, staged: seq<Delivery>, count: int, bytes: int, wanted: seq<Visit>,
    v: Visit)
  {
    |v.document| <= limits.message && |existing| + |staged| + 1 <= limits.entries &&
    Bytes(existing) + Bytes(staged) + |v.document| <= limits.bytes &&
    count + |wanted| <= limits.entries && bytes + Weight(wanted) <= limits.bytes
  }

  /** A traversal that fits every budget as a whole fits them at each turn. */
  lemma AffordableTurn(
    n: Web, limits: Limits, existing: seq<Delivery>, made: seq<Visit>, waiting: seq<Visit>, wanted: seq<Visit>,
    v: Visit)
    requires Affordable(limits, existing, made + [v] + Visits(n, wanted + Reversed(waiting)))
    ensures Roomy(limits, existing, Delivered(n, made), |waiting|, Weight(waiting), wanted, v)
    ensures |Expanded(n, made)| < limits.entries
  {
    AffordableCosts(n, limits, existing, made, waiting, wanted, v);
    DeliveredCosts(n, made);
  }

  lemma RoomyVisit(n: Web, limits: Limits, existing: seq<Delivery>, start: seq<Visit>, made: seq<Visit>, v: Visit)
    requires Roomy(limits, existing, Delivered(n, made), Queued(n, start, made) - 1,
                   QueuedBytes(n, start, made) - |v.document|, n.below(v), v)
    requires |Expanded(n, made)| < limits.entries
    ensures VisitError(n, limits, existing, start, made, v).None?
  {
  }

  /** What the walk has established about the visits it has made. */
  ghost predicate WalkedWithin(n: Web, limits: Limits, existing: seq<Delivery>, made: seq<Visit>) {
    var staged, expanded := Delivered(n, made), Expanded(n, made);
    |expanded| <= limits.entries && (forall v :: v in expanded ==> |v.document| <= limits.message) &&
    (staged != [] ==> |existing| + |staged| <= limits.entries && Bytes(existing) + Bytes(staged) <= limits.bytes)
  }

  lemma ExpandedGrows(n: Web, made: seq<Visit>, v: Visit)
    ensures Expanded(n, made + [v]) == Expanded(n, made) + if n.heard(v) then [v] else []
  {
    FilterAppend(n.heard, made, [v]);
    if n.heard(v) { FilterAll(n.heard, [v]); } else { FilterNone(n.heard, [v]); }
  }

  lemma WalkedSkip(n: Web, limits: Limits, existing: seq<Delivery>, made: seq<Visit>, v: Visit)
    requires WalkedWithin(n, limits, existing, made) && !n.heard(v)
    ensures WalkedWithin(n, limits, existing, made + [v])
    ensures Delivered(n, made + [v]) == Delivered(n, made)
    ensures |Expanded(n, made + [v])| == |Expanded(n, made)|
  {
    DeliveredGrows(n, made, v);
    assert Delivered(n, made) + [] == Delivered(n, made);
    ExpandedGrows(n, made, v);
  }

  lemma WalkedTurn(n: Web, limits: Limits, existing: seq<Delivery>, made: seq<Visit>, v: Visit)
    requires WalkedWithin(n, limits, existing, made) && n.heard(v)
    requires |Expanded(n, made)| < limits.entries && |v.document| <= limits.message
    requires var own, staged := n.own(v), Delivered(n, made);
             own != [] ==> |existing| + |staged + own| <= limits.entries &&
                           Bytes(existing) + Bytes(staged + own) <= limits.bytes
    ensures WalkedWithin(n, limits, existing, made + [v])
    ensures |Expanded(n, made + [v])| == |Expanded(n, made)| + 1
    ensures Delivered(n, made + [v]) == Delivered(n, made) + n.own(v)
  {
    var staged, own := Delivered(n, made), n.own(v);
    DeliveredGrows(n, made, v);
    ExpandedGrows(n, made, v);
    assert own == [] ==> staged + own == staged;
  }

  /** Popping the stack moves its top from the visits to come to the visits made. */
  lemma PoppedVisits(n: Web, made: seq<Visit>, stack: seq<Visit>)
    requires stack != []
    ensures var v, waiting := stack[|stack| - 1], stack[..|stack| - 1];
            made + Visits(n, Reversed(stack)) == made + [v] + Visits(n, n.below(v) + Reversed(waiting))
  {
    var v, waiting := stack[|stack| - 1], stack[..|stack| - 1];
    ReversedPop(stack);
    VisitsStep(n, Reversed(stack));
    assert Reversed(stack)[0] == v && Reversed(stack)[1..] == Reversed(waiting);
  }

  /** A visit that fits keeps everything established so far. */
  lemma WalkedVisit(n: Web, limits: Limits, existing: seq<Delivery>, start: seq<Visit>, made: seq<Visit>, v: Visit)
    requires WalkedWithin(n, limits, existing, made) && n.heard(v)
    requires VisitError(n, limits, existing, start, made, v).None?
    ensures WalkedWithin(n, limits, existing, made + [v])
    ensures |Expanded(n, made + [v])| == |Expanded(n, made)| + 1
    ensures Delivered(n, made + [v]) == Delivered(n, made) + n.own(v)
  {
    var staged, own := Delivered(n, made), n.own(v);
    BytesAppend(staged, own);
    OwnCosts(n, v);
    WalkedTurn(n, limits, existing, made, v);
  }

  /** What the stack holds after the visits made, and how the walk so far compares with the whole. */
  ghost predicate Midway(n: Web, start: seq<Visit>, all: seq<Visit>, made: seq<Visit>, stack: seq<Visit>) {
    all == made + Visits(n, Reversed(stack)) &&
    Queued(n, start, made) == |stack| && QueuedBytes(n, start, made) == Weight(stack)
  }

  lemma MidwayStart(n: Web, stack: seq<Visit>)
    ensures Midway(n, Reversed(stack), Visits(n, Reversed(stack)), [], stack)
  {
    ReversedTotal(Size, stack);
  }

  lemma MidwayStep(n: Web, start: seq<Visit>, all: seq<Visit>, made: seq<Visit>, stack: seq<Visit>)
    requires Midway(n, start, all, made, stack) && stack != []
    ensures var v, waiting := stack[|stack| - 1], stack[..|stack| - 1];
            Midway(n, start, all, made + [v], waiting + Reversed(n.below(v))) &&
            |made| < |all| && all[..|made|] == made && all[|made|] == v &&
            Queued(n, start, made) - 1 == |waiting| && QueuedBytes(n, start, made) - |v.document| == Weight(waiting)
  {
    var v, waiting := stack[|stack| - 1], stack[..|stack| - 1];
    PoppedVisits(n, made, stack);
    ReversedPush(waiting, n.below(v));
    QueuedStep(n, start, made, v);
    assert stack == waiting + [v] && [v][1..] == [];
    TotalAppend(Size, waiting, [v]);
    TotalAppend(Size, waiting, Reversed(n.below(v)));
    ReversedTotal(Size, n.below(v));
  }

  lemma {:induction false} AffordableFrom(
    n: Web, limits: Limits, existing: seq<Delivery>, start: seq<Visit>, all: seq<Visit>, made: seq<Visit>,
    stack: seq<Visit>)
    requires Midway(n, start, all, made, stack) && Affordable(limits, existing, all)
    ensures |made| <= |all| && FirstFailure(Check(n, limits, existing, start), all, |made|).None?
    decreases |all| - |made|
  {
    if stack == [] {
      assert made + [] == made;
    } else {
      var v, waiting := stack[|stack| - 1], stack[..|stack| - 1];
      PoppedVisits(n, made, stack);
      MidwayStep(n, start, all, made, stack);
      AffordableTurn(n, limits, existing, made, waiting, n.below(v), v);
      RoomyVisit(n, limits, existing, start, made, v);
      AffordableFrom(n, limits, existing, start, all, made + [v], waiting + Reversed(n.below(v)));
    }
  }

  /** A traversal that fits the budgets as a whole never fails, in whatever order it is queued. */
  lemma AffordableWalkSucceeds(n: Web, limits: Limits, existing: seq<Delivery>, start: seq<Visit>)
    requires Affordable(limits, existing, Visits(n, start))
    ensures WalkFailure(n, limits, existing, start).None?
  {
    ReversedTwice(start);
    MidwayStart(n, Reversed(start));
    AffordableFrom(n, limits, existing, start, Visits(n, start), [], Reversed(start));
  }

  lemma {:induction false} WithinSoFar(
    n: Web, limits: Limits, existing: seq<Delivery>, start: seq<Visit>, all: seq<Visit>, k: nat)
    requires k <= |all|
    requires forall i :: 0 <= i < k ==> VisitError(n, limits, existing, start, all[..i], all[i]).None?
    ensures WalkedWithin(n, limits, existing, all[..k])
  {
    if k > 0 {
      var made, v := all[..k - 1], all[k - 1];
      WithinSoFar(n, limits, existing, start, all, k - 1);
      assert all[..k] == made + [v];
      if n.heard(v) {
        WalkedVisit(n, limits, existing, start, made, v);
      } else {
        WalkedSkip(n, limits, existing, made, v);
      }
    }
  }

  /** What a successful walk has respected: visit, message, entry and byte limits. */
  lemma SuccessfulWalkIsWithin(n: Web, limits: Limits, existing: seq<Delivery>, start: seq<Visit>)
    requires WalkFailure(n, limits, existing, start).None?
    ensures WalkedWithin(n, limits, existing, Visits(n, start))
  {
    var all := Visits(n, start);
    NoFailureIff(Check(n, limits, existing, start), all, 0);
    forall k | 0 <= k < |all|
      ensures VisitError(n, limits, existing, start, all[..k], all[k]).None?
    {
      assert Check(n, limits, existing, start)(all[..k], all[k]).None?;
    }
    WithinSoFar(n, limits, existing, start, all, |all|);
    assert all[..|all|] == all;
  }

  /** Where the walk stands: what the stack holds, and that nothing has failed so far. */
  ghost predicate Walking(
    n: Web, limits: Limits, existing: seq<Delivery>, start: seq<Visit>, made: seq<Visit>, stack: seq<Visit>)
  {
    var all := Visits(n, start);
    Midway(n, start, all, made, stack) && |made| <= |all| &&
    WalkFailure(n, limits, existing, start) == FirstFailure(Check(n, limits, existing, start), all, |made|)
  }

  lemma WalkingStart(n: Web, limits: Limits, existing: seq<Delivery>, stack: seq<Visit>)
    ensures Walking(n, limits, existing, Reversed(stack), [], stack)
  {
    MidwayStart(n, stack);
  }

  /** One visit on, or the failure of the whole walk. */
  lemma WalkingStep(
    n: Web, limits: Limits, existing: seq<Delivery>, start: seq<Visit>, made: seq<Visit>, stack: seq<Visit>)
    requires Walking(n, limits, existing, start, made, stack) && stack != []
    ensures var v, waiting := stack[|stack| - 1], stack[..|stack| - 1];
            var error := VisitError(n, limits, existing, start, made, v);
            (if error.Some? then WalkFailure(n, limits, existing, start) == error
             else Walking(n, limits, existing, start, made + [v], waiting + Reversed(n.below(v)))) &&
            Queued(n, start, made) - 1 == |waiting| && QueuedBytes(n, start, made) - |v.document| == Weight(waiting)
  {
    MidwayStep(n, start, Visits(n, start), made, stack);
  }

  lemma WalkingDone(n: Web, limits: Limits, existing: seq<Delivery>, start: seq<Visit>, made: seq<Visit>)
    requires Walking(n, limits, existing, start, made, [])
    ensures WalkFailure(n, limits, existing, start).None? && made == Visits(n, start)
  {
    assert made + [] == made;
  }

  /** What has been staged and counted for the visits made. */
  ghost predicate Staged(n: Web, limits: Limits, made: seq<Visit>, staged: seq<Delivery>, visits: nat) {
    staged == Delivered(n, made) && visits == |Expanded(n, made)| <= limits.entries
  }

  lemma StagedStep(n: Web, limits: Limits, made: seq<Visit>, staged: seq<Delivery>, visits: nat, v: Visit)
    requires Staged(n, limits, made, staged, visits)
    ensures if n.heard(v)
            then visits < limits.entries ==> Staged(n, limits, made + [v], staged + n.own(v), visits + 1)
            else Staged(n, limits, made + [v], staged, visits)
  {
    DeliveredGrows(n, made, v);
    ExpandedGrows(n, made, v);
    assert staged + [] == staged;
  }

  /** Take one visit off the stack: skip it, or count it, stage its delivery and queue what it forwards. */
  method TakeVisit(
    n: Web, limits: Limits, existing: seq<Delivery>, stack: seq<Visit>, staged: seq<Delivery>, visits: nat,
    ghost start: seq<Visit>, ghost made: seq<Visit>)
    returns (r: Result<(seq<Visit>, seq<Delivery>, nat), SendError>)
    requires stack != [] && Walking(n, limits, existing, start, made, stack) && Staged(n, limits, made, staged, visits)
    ensures r.Err? ==> WalkFailure(n, limits, existing, start) == Some(r.error)
    ensures r.Ok? ==>
              var (left, now, count) := r.value;
              var after := made + [stack[|stack| - 1]];
              Walking(n, limits, existing, start, after, left) && Staged(n, limits, after, now, count) &&
              (count == visits + 1 || (count == visits && |left| < |stack|))
  {
    var v, waiting := stack[|stack| - 1], stack[..|stack| - 1];
    WalkingStep(n, limits, existing, start, made, stack);
    StagedStep(n, limits, made, staged, visits, v);
    if !n.heard(v) {
      assert waiting + Reversed([]) == waiting;
      return Ok((waiting, staged, visits));
    }
    if visits + 1 > limits.entries {
      return Err(TraversalLimit);
    }
    var turn := Turn(n, limits, existing, staged, waiting, v);
    if turn.Err? {
      return Err(turn.error);
    }
    return Ok((turn.value.1, turn.value.0, visits + 1));
  }

  /**
   * Walk the stack into a staged batch: exactly the deliveries of the recursive traversal, or the
   * first failure of that traversal.
   */
  method Walk(n: Web, limits: Limits, existing: seq<Delivery>, start: seq<Visit>)
    returns (r: Result<seq<Delivery>, SendError>)
    ensures var all := Visits(n, Reversed(start));
            var error := WalkFailure(n, limits, existing, Reversed(start));
            r == if error.Some? then Err(error.value) else Ok(Delivered(n, all))
  {
    ghost var first, made: seq<Visit> := Reversed(start), [];
    var stack, staged: seq<Delivery>, visits := start, [], 0;
    WalkingStart(n, limits, existing, start);
    while stack != []
      invariant Walking(n, limits, existing, first, made, stack) && Staged(n, limits, made, staged, visits)
      decreases limits.entries - visits, |stack|
    {
      var taken := TakeVisit(n, limits, existing, stack, staged, visits, first, made);
      if taken.Err? {
        return Err(taken.error);
      }
      made := made + [stack[|stack| - 1]];
      stack, staged, visits := taken.value.0, taken.value.1, taken.value.2;
    }
    WalkingDone(n, limits, existing, first, made);
    return Ok(staged);
  }

  // ----- Sending a request

  function Rank(recursion: int, v: Visit): nat { if v.depth < recursion then recursion - v.depth else 0 }

  function RoutesOf(w: World, ids: seq<nat>, recursion: int): Routes {
    Routes((v: Visit) => Expands(w, recursion, v), (v: Visit) => Own(w, recursion, v),
           (v: Visit) => Onward(w, ids, recursion, v), (v: Visit) => Rank(recursion, v),
           if recursion < 0 then 0 else recursion)
  }

  lemma RoutesAreSound(w: World, ids: seq<nat>, recursion: int)
    ensures Sound(RoutesOf(w, ids, recursion))
  {
  }

  /** The world as a depth-limited web of visits. */
  function Network(w: World, recursion: int): Web {
    RoutesAreSound(w, Ascending(w.objects.Keys), recursion);
    RoutesOf(w, Ascending(w.objects.Keys), recursion)
  }

  /** A visit counts unless it is empty, at the depth limit, or addressed to nobody who can hear. */
  ghost predicate Heard(w: World, recursion: int, v: Visit) {
    |v.document| > 0 && v.depth < recursion && v.target in w.objects &&
    w.objects[v.target].kind !in {Garbage, Exit}
  }

  /** What each visit delivers, and the whole list of visits it leads to. */
  lemma NetworkExactly(w: World, recursion: int, v: Visit)
    ensures var n := Network(w, recursion);
            (n.heard(v) <==> Heard(w, recursion, v)) &&
            n.own(v) == (if Heard(w, recursion, v) && v.policy.me && w.objects[v.target].kind == Player
                         then [(v.target, v.document)] else []) &&
            n.below(v) == if Heard(w, recursion, v) then Children(w, Ascending(w.objects.Keys), v) else []
  {
  }

  /** A visit leads on exactly when it is heard, and then wherever its policy and surroundings allow. */
  lemma NetworkForwards(w: World, recursion: int, v: Visit, c: Visit)
    ensures c in Network(w, recursion).below(v) <==> Expands(w, recursion, v) && Forwards(w, v, c)
  {
    if Expands(w, recursion, v) {
      ChildrenExactly(w, Ascending(w.objects.Keys), v, c);
    }
  }

  class Outbox {
    var entries: seq<Delivery>

    constructor ()
      ensures entries == []
    {
      entries := [];
    }
  }

  /** The target itself is queued whatever the budgets; the occupants must fit them on their own. */
  ghost predicate StartFits(w: World, limits: Limits, r: Request) {
    var occupants := FirstOccupants(w, r);
    occupants == [] || (|occupants| <= limits.entries && Weight(occupants) <= limits.bytes)
  }

  /** The stack a request starts from, top last, unless its occupants exceed the budgets. */
  method InitialStack(w: World, limits: Limits, r: Request) returns (stack: Option<seq<Visit>>)
    ensures stack.Some? <==> StartFits(w, limits, r)
    ensures var occupants := FirstOccupants(w, r);
            stack.None? <==> occupants != [] && (|occupants| > limits.entries || Weight(occupants) > limits.bytes)
    ensures stack.Some? ==> Reversed(stack.value) == Initial(w, r)
  {
    ReversedTwice(Initial(w, r));
    if r.exclusions.Some? {
      var occupants := FirstOccupants(w, r);
      var ok := Queue(limits, [], occupants);
      if !ok {
        return None;
      }
    }
    return Some(Reversed(Initial(w, r)));
  }

  lemma AffordableStart(w: World, limits: Limits, r: Request)
    requires |Initial(w, r)| <= limits.entries && Weight(Initial(w, r)) <= limits.bytes
    ensures StartFits(w, limits, r)
  {
    var all, occupants := Initial(w, r), FirstOccupants(w, r);
    if r.exclusions.Some? {
      TotalAppend(Size, all[..|all| - |occupants|], occupants);
      assert all == all[..|all| - |occupants|] + occupants;
    }
  }

  /** Why a request is refused, if it is. */
  ghost function SendFailure(w: World, limits: Limits, existing: seq<Delivery>, r: Request): Option<SendError> {
    if '\0' in r.document then Some(EmbeddedNul)
    else if !StartFits(w, limits, r) then Some(TraversalLimit)
    else WalkFailure(Network(w, limits.recursion), limits, existing, Initial(w, r))
  }

  /** Deliver a request into the outbox, or leave the outbox untouched. */
  method Send(w: World, outbox: Outbox, limits: Limits, request: Request) returns (r: Result<(), SendError>)
    modifies outbox
    ensures var network := Network(w, limits.recursion);
            var all := Visits(network, Initial(w, request));
            var delivered := Delivered(network, all);
            var failure := SendFailure(w, limits, old(outbox.entries), request);
            r == (if failure.Some? then Err(failure.value) else Ok(())) &&
            outbox.entries == old(outbox.entries) + (if r.Ok? then delivered else []) &&
            (r.Ok? && delivered != [] ==>
              |outbox.entries| <= limits.entries && Bytes(outbox.entries) <= limits.bytes) &&
            (r.Ok? ==> WalkedWithin(network, limits, old(outbox.entries), all)) &&
            (Affordable(limits, old(outbox.entries), all) && '\0' !in request.document ==> r.Ok?)
    ensures '\0' in request.document ==> r == Err(EmbeddedNul)
  {
    if '\0' in request.document {
      return Err(EmbeddedNul);
    }
    var network := Network(w, limits.recursion);
    ghost var all := Visits(network, Initial(w, request));
    QueuedWithinVisits(network, Initial(w, request));
    if Affordable(limits, outbox.entries, all) {
      AffordableStart(w, limits, request);
      AffordableWalkSucceeds(network, limits, outbox.entries, Initial(w, request));
    }
    var stack := InitialStack(w, limits, request);
    if stack.None? {
      return Err(TraversalLimit);
    }
    var staged := Walk(network, limits, outbox.entries, stack.value);
    if staged.Err? {
      return Err(staged.error);
    }
    SuccessfulWalkIsWithin(network, limits, outbox.entries, Initial(w, request));
    BytesAppend(outbox.entries, staged.value);
    outbox.entries := outbox.entries + staged.value;
    return Ok(());
  }
}
