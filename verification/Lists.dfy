/** Persisted containment lists: walking them, ordering true members and rebuilding every slot. */
module Lists {
  import opened Prelude
  import opened Worlds

  /** The persisted columns of one object: two list heads and a next link, with -1 for none. */
  datatype LinkSlots = LinkSlots(contents: int, exits: int, next: int) {
    function Head(ofExits: bool): int { if ofExits then exits else contents }

    function WithHead(ofExits: bool, head: int): LinkSlots {
      if ofExits then this.(exits := head) else this.(contents := head)
    }
  }

  const EMPTY := LinkSlots(-1, -1, -1)

  type Links = map<nat, LinkSlots>

  predicate MemberKind(k: Kind, ofExits: bool) { if ofExits then k.Exit? else OccupantKind(k) }

  function NextSlot(raw: Links, id: nat): int { if id in raw then raw[id].next else -1 }

  function HeadSlot(raw: Links, owner: nat, ofExits: bool): int {
    if owner in raw then raw[owner].Head(ofExits) else -1
  }

  /** The usable remainder of a persisted list from slot value `next`. */
  function ChainFrom(w: World, raw: Links, next: int, ofExits: bool, seen: set<nat>): seq<nat>
    decreases w.objects.Keys - seen
  {
    if next < 0 || next in seen || next !in w.objects || !MemberKind(w.objects[next].kind, ofExits) then []
    else [next] + ChainFrom(w, raw, NextSlot(raw, next), ofExits, seen + {next})
  }

  function Chain(w: World, raw: Links, owner: nat, ofExits: bool): seq<nat> {
    ChainFrom(w, raw, HeadSlot(raw, owner, ofExits), ofExits, {})
  }

  /** Follow the links from a head until one repeats, dangles or has the wrong kind, keeping what came before. */
  method WalkChain(w: World, raw: Links, owner: nat, ofExits: bool) returns (result: seq<nat>)
    ensures result == Chain(w, raw, owner, ofExits)
  {
    result := [];
    var seen: set<nat>, next := {}, HeadSlot(raw, owner, ofExits);
    while next >= 0
      invariant Chain(w, raw, owner, ofExits) == result + ChainFrom(w, raw, next, ofExits, seen)
      decreases w.objects.Keys - seen
    {
      if next in seen || next !in w.objects || !MemberKind(w.objects[next].kind, ofExits) {
        break;
      }
      result, seen := result + [next], seen + {next};
      next := NextSlot(raw, next);
    }
  }

  lemma {:induction false} ChainFacts(w: World, raw: Links, next: int, ofExits: bool, seen: set<nat>)
    ensures var r := ChainFrom(w, raw, next, ofExits, seen);
            Distinct(r) &&
            forall id :: id in r ==> id in w.objects && MemberKind(w.objects[id].kind, ofExits) && id !in seen
    decreases w.objects.Keys - seen
  {
    var r := ChainFrom(w, raw, next, ofExits, seen);
    if r != [] {
      ChainFacts(w, raw, NextSlot(raw, next), ofExits, seen + {next});
      assert r == [r[0]] + r[1..];
    }
  }

  /** A slot value that the walk does not follow: the end, a repeat, a missing object or a wrong kind. */
  ghost predicate Stops(w: World, ofExits: bool, walked: seq<nat>, next: int) {
    next < 0 || next in walked || next !in w.objects || !MemberKind(w.objects[next].kind, ofExits)
  }

  /** The slot value the i-th member is read from. */
  function SlotBefore(raw: Links, head: int, walked: seq<nat>, i: nat): int
    requires i <= |walked|
  {
    if i == 0 then head else NextSlot(raw, walked[i - 1])
  }

  ghost predicate StepsTo(w: World, raw: Links, head: int, ofExits: bool, walked: seq<nat>, i: nat)
    requires i < |walked|
  {
    walked[i] == SlotBefore(raw, head, walked, i) && !Stops(w, ofExits, walked[..i], walked[i])
  }

  /** Each member is the slot value before it, and the value after the last one stops the walk. */
  ghost predicate FollowsSlots(w: World, raw: Links, head: int, ofExits: bool, walked: seq<nat>) {
    (forall i :: 0 <= i < |walked| ==> StepsTo(w, raw, head, ofExits, walked, i)) &&
    Stops(w, ofExits, walked, SlotBefore(raw, head, walked, |walked|))
  }

  lemma StepsGrow(w: World, raw: Links, head: int, ofExits: bool, done: seq<nat>, next: nat, i: nat)
    requires i < |done| && StepsTo(w, raw, head, ofExits, done, i)
    ensures StepsTo(w, raw, head, ofExits, done + [next], i)
  {
    assert (done + [next])[..i] == done[..i];
  }

  lemma {:induction false} ChainFollowsSlots(w: World, raw: Links, head: int, ofExits: bool, done: seq<nat>)
    requires forall i :: 0 <= i < |done| ==> StepsTo(w, raw, head, ofExits, done, i)
    ensures var rest := ChainFrom(w, raw, SlotBefore(raw, head, done, |done|), ofExits, Elements(done));
            FollowsSlots(w, raw, head, ofExits, done + rest)
    decreases w.objects.Keys - Elements(done)
  {
    var next := SlotBefore(raw, head, done, |done|);
    var rest := ChainFrom(w, raw, next, ofExits, Elements(done));
    if Stops(w, ofExits, done, next) {
      assert rest == [] && done + rest == done;
    } else {
      var id: nat := next;
      var more: seq<nat> := done + [id];
      assert Elements(more) == Elements(done) + {id} && id !in Elements(done) && id in w.objects.Keys;
      assert more[..|done|] == done && StepsTo(w, raw, head, ofExits, more, |done|);
      forall i | 0 <= i < |more|
        ensures StepsTo(w, raw, head, ofExits, more, i)
      {
        if i < |done| {
          StepsGrow(w, raw, head, ofExits, done, id, i);
        }
      }
      ChainFollowsSlots(w, raw, head, ofExits, more);
      var later := ChainFrom(w, raw, NextSlot(raw, id), ofExits, Elements(more));
      assert rest == [id] + later;
      assert done + ([id] + later) == more + later;
    }
  }

  lemma {:induction false} FollowersAgree(
    w: World, raw: Links, head: int, ofExits: bool, a: seq<nat>, b: seq<nat>, n: nat)
    requires FollowsSlots(w, raw, head, ofExits, a) && FollowsSlots(w, raw, head, ofExits, b)
    requires n <= |a| && n <= |b|
    ensures a[..n] == b[..n]
  {
    if n > 0 {
      FollowersAgree(w, raw, head, ofExits, a, b, n - 1);
      assert StepsTo(w, raw, head, ofExits, a, n - 1) && StepsTo(w, raw, head, ofExits, b, n - 1);
      assert n > 1 ==> a[n - 2] == a[..n - 1][n - 2] && b[n - 2] == b[..n - 1][n - 2];
      assert a[..n] == a[..n - 1] + [a[n - 1]] && b[..n] == b[..n - 1] + [b[n - 1]];
    }
  }

  lemma LongerFollowerGoesOn(w: World, raw: Links, head: int, ofExits: bool, a: seq<nat>, b: seq<nat>)
    requires FollowsSlots(w, raw, head, ofExits, b) && |a| < |b| && b[..|a|] == a
    ensures !Stops(w, ofExits, a, SlotBefore(raw, head, a, |a|))
  {
    assert StepsTo(w, raw, head, ofExits, b, |a|);
    assert |a| > 0 ==> a[|a| - 1] == b[|a| - 1];
  }

  lemma FollowersEndTogether(w: World, raw: Links, head: int, ofExits: bool, a: seq<nat>, b: seq<nat>)
    requires FollowsSlots(w, raw, head, ofExits, a) && FollowsSlots(w, raw, head, ofExits, b) && |a| <= |b|
    ensures a == b
  {
    FollowersAgree(w, raw, head, ofExits, a, b, |a|);
    assert a[..|a|] == a;
    assert b[..|b|] == b;
    if |a| < |b| {
      LongerFollowerGoesOn(w, raw, head, ofExits, a, b);
    }
  }

  /** The walk is the one listing that follows the slots from the head and ends where they stop. */
  lemma ChainExactly(w: World, raw: Links, owner: nat, ofExits: bool, walked: seq<nat>)
    ensures walked == Chain(w, raw, owner, ofExits) <==>
            FollowsSlots(w, raw, if owner in raw then raw[owner].Head(ofExits) else -1, ofExits, walked)
  {
    var head, chain := HeadSlot(raw, owner, ofExits), Chain(w, raw, owner, ofExits);
    ChainFollowsSlots(w, raw, head, ofExits, []);
    assert [] + chain == chain && Elements<nat>([]) == {};
    if FollowsSlots(w, raw, head, ofExits, walked) {
      if |walked| <= |chain| {
        FollowersEndTogether(w, raw, head, ofExits, walked, chain);
      } else {
        FollowersEndTogether(w, raw, head, ofExits, chain, walked);
      }
    }
  }

  // ----- Members in persisted order

  function Members(w: World, owner: nat, ofExits: bool): set<nat> {
    set id | id in w.objects && w.objects[id].location == Some(owner) && MemberKind(w.objects[id].kind, ofExits)
  }

  function Retained(w: World, raw: Links, owner: nat, ofExits: bool): seq<nat> {
    var members := Members(w, owner, ofExits);
    Filter((id: nat) => id in members, Chain(w, raw, owner, ofExits))
  }

  /** Members the persisted list still reaches, as it orders them, then the remaining members ascending. */
  function OrderedMembers(w: World, raw: Links, owner: nat, ofExits: bool): seq<nat> {
    var retained := Retained(w, raw, owner, ofExits);
    retained + Ascending(Members(w, owner, ofExits) - Elements(retained))
  }

  /** The listing is duplicate-free and lists exactly the objects located in the owner. */
  lemma OrderedMembersListMembersOnce(w: World, raw: Links, owner: nat, ofExits: bool)
    ensures Distinct(OrderedMembers(w, raw, owner, ofExits))
    ensures forall id :: id in OrderedMembers(w, raw, owner, ofExits) <==> id in Members(w, owner, ofExits)
  {
    var members := Members(w, owner, ofExits);
    ChainFacts(w, raw, HeadSlot(raw, owner, ofExits), ofExits, {});
    FilterDistinct((id: nat) => id in members, Chain(w, raw, owner, ofExits));
    var retained := Retained(w, raw, owner, ofExits);
    var added := Ascending(members - Elements(retained));
    forall i, j | 0 <= i < j < |retained + added|
      ensures (retained + added)[i] != (retained + added)[j]
    {
      if i < |retained| <= j {
        assert retained[i] in retained && added[j - |retained|] in added;
      }
    }
  }

  lemma ListedIffMember(w: World, raw: Links, owner: nat, ofExits: bool, id: nat)
    ensures id in OrderedMembers(w, raw, owner, ofExits) <==>
            id in w.objects && w.objects[id].location == Some(owner) && MemberKind(w.objects[id].kind, ofExits)
  {
    OrderedMembersListMembersOnce(w, raw, owner, ofExits);
  }

  /** Among objects the persisted list still reaches, the listing keeps the persisted order. */
  lemma OrderedMembersKeepPersistedOrder(w: World, raw: Links, owner: nat, ofExits: bool)
    ensures var members := Members(w, owner, ofExits);
            var walked := Chain(w, raw, owner, ofExits);
            Filter((id: nat) => id in walked, OrderedMembers(w, raw, owner, ofExits)) ==
            Filter((id: nat) => id in members, walked)
  {
    var members := Members(w, owner, ofExits);
    var walked := Chain(w, raw, owner, ofExits);
    var inWalked := (id: nat) => id in walked;
    var retained := Retained(w, raw, owner, ofExits);
    var added := Ascending(members - Elements(retained));
    FilterAppend(inWalked, retained, added);
    FilterAll(inWalked, retained);
    FilterNone(inWalked, added);
  }

  /** A prefix the predicate keeps, then an increasing remainder it does not. */
  ghost predicate SplitsAt(order: seq<nat>, walked: seq<nat>, n: nat) {
    n <= |order| && (forall id :: id in order[..n] ==> id in walked) &&
    (forall id :: id in order[n..] ==> id !in walked) && Increasing(order[n..])
  }

  /** Retained members come first; the additions follow them in ascending order. */
  lemma OrderedMembersAppendAdditions(w: World, raw: Links, owner: nat, ofExits: bool)
    ensures exists n: nat :: SplitsAt(OrderedMembers(w, raw, owner, ofExits), Chain(w, raw, owner, ofExits), n)
  {
    var members, walked := Members(w, owner, ofExits), Chain(w, raw, owner, ofExits);
    var retained := Retained(w, raw, owner, ofExits);
    RetainedThenAdded(walked, retained, Ascending(members - Elements(retained)), members);
    assert SplitsAt(OrderedMembers(w, raw, owner, ofExits), walked, |retained|);
  }

  lemma RetainedThenAdded(walked: seq<nat>, retained: seq<nat>, added: seq<nat>, members: set<nat>)
    requires (forall id :: id in retained <==> id in walked && id in members) && Increasing(added)
    requires forall id :: id in added ==> id in members && id !in retained
    ensures SplitsAt(retained + added, walked, |retained|)
  {
    assert (retained + added)[..|retained|] == retained && (retained + added)[|retained|..] == added;
  }

  // ----- Rebuilding

  function First(order: seq<nat>): int { if order == [] then -1 else order[0] }

  function NextAfter(order: seq<nat>, id: nat): int {
    if order == [] then -1
    else if order[0] == id then First(order[1..])
    else NextAfter(order[1..], id)
  }

  lemma {:induction false} NextAfterAt(order: seq<nat>, i: nat)
    requires Distinct(order) && i < |order|
    ensures NextAfter(order, order[i]) == First(order[i + 1..])
  {
    if i > 0 {
      assert order[1..][i - 1] == order[i] != order[0];
      NextAfterAt(order[1..], i - 1);
      assert order[1..][i..] == order[i + 1..];
    }
  }

  /** The container whose list carries an object, if any. */
  predicate ListedIn(w: World, id: nat, owner: int) {
    id in w.objects && w.objects[id].location == Some(owner) && !w.objects[id].kind.Room? &&
    !w.objects[id].kind.Garbage? && owner in w.objects && ContainerKind(w.objects[owner].kind)
  }

  function RebuiltHead(w: World, raw: Links, id: nat, ofExits: bool): int
    requires id in w.objects
  {
    var o := w.objects[id];
    if ContainerKind(o.kind) then First(OrderedMembers(w, raw, id, ofExits))
    else if o.kind.Exit? && ofExits && o.location.Some? then o.location.value
    else -1
  }

  function RebuiltNext(w: World, raw: Links, id: nat): int
    requires id in w.objects
  {
    var o := w.objects[id];
    if o.location.Some? && ListedIn(w, id, o.location.value)
    then NextAfter(OrderedMembers(w, raw, o.location.value, o.kind.Exit?), id) else -1
  }

  /** Heads of a container's two lists, an exit's source, and the next member of the enclosing list. */
  function RebuiltSlots(w: World, raw: Links, id: nat): LinkSlots
    requires id in w.objects
  {
    LinkSlots(RebuiltHead(w, raw, id, false), RebuiltHead(w, raw, id, true), RebuiltNext(w, raw, id))
  }

  function Rebuilt(w: World, raw: Links): Links {
    map id | id in w.objects :: RebuiltSlots(w, raw, id)
  }

  /** An object's slots after the objects in `done` have written their lists. */
  ghost function PartialSlots(w: World, raw: Links, done: set<nat>, id: nat): LinkSlots
    requires id in w.objects
  {
    var full := RebuiltSlots(w, raw, id);
    var next := if w.objects[id].location.Some? && w.objects[id].location.value in done then full.next else -1;
    if id in done then full.(next := next) else EMPTY.(next := next)
  }

  ghost function Partial(w: World, raw: Links, done: set<nat>): Links {
    map id | id in w.objects :: PartialSlots(w, raw, done, id)
  }

  function WrittenSlots(slots: LinkSlots, id: nat, owner: nat, ofExits: bool, order: seq<nat>): LinkSlots {
    var linked := if id in order then slots.(next := NextAfter(order, id)) else slots;
    if id == owner then linked.WithHead(ofExits, First(order)) else linked
  }

  function Written(links: Links, owner: nat, ofExits: bool, order: seq<nat>): Links {
    map id | id in links :: WrittenSlots(links[id], id, owner, ofExits, order)
  }

  method WriteList(links: Links, owner: nat, ofExits: bool, order: seq<nat>) returns (r: Links)
    requires owner in links && Distinct(order) && forall id :: id in order ==> id in links
    ensures r == Written(links, owner, ofExits, order)
  {
    r := links[owner := links[owner].WithHead(ofExits, First(order))];
    for i := 0 to |order|
      invariant r.Keys == links.Keys
      invariant forall id :: id in links ==>
        r[id] == var linked := if id in order[..i] then links[id].(next := NextAfter(order, id)) else links[id];
                 if id == owner then linked.WithHead(ofExits, First(order)) else linked
    {
      NextAfterAt(order, i);
      r := r[order[i] := r[order[i]].(next := if i + 1 < |order| then order[i + 1] else -1)];
      assert order[..i + 1] == order[..i] + [order[i]];
    }
    assert order[..|order|] == order;
  }

  lemma WrittenSlotsAdvance(w: World, raw: Links, done: set<nat>, owner: nat, id: nat)
    requires owner in w.objects && owner !in done && ContainerKind(w.objects[owner].kind) && id in w.objects
    ensures var contents := OrderedMembers(w, raw, owner, false);
            var exits := OrderedMembers(w, raw, owner, true);
            WrittenSlots(WrittenSlots(PartialSlots(w, raw, done, id), id, owner, false, contents),
                         id, owner, true, exits) == PartialSlots(w, raw, done + {owner}, id)
  {
    ListedIffMember(w, raw, owner, false, id);
    ListedIffMember(w, raw, owner, true, id);
  }

  lemma WrittenListsAdvance(w: World, raw: Links, done: set<nat>, owner: nat)
    requires owner in w.objects && owner !in done && ContainerKind(w.objects[owner].kind)
    ensures Written(Written(Partial(w, raw, done), owner, false, OrderedMembers(w, raw, owner, false)),
                    owner, true, OrderedMembers(w, raw, owner, true)) == Partial(w, raw, done + {owner})
  {
    forall id | id in w.objects
      ensures WrittenSlots(WrittenSlots(PartialSlots(w, raw, done, id), id, owner, false,
                OrderedMembers(w, raw, owner, false)), id, owner, true, OrderedMembers(w, raw, owner, true)) ==
              PartialSlots(w, raw, done + {owner}, id)
    {
      WrittenSlotsAdvance(w, raw, done, owner, id);
    }
  }

  lemma ListlessAdvance(w: World, raw: Links, done: set<nat>, id: nat)
    requires id in w.objects && id !in done && !ContainerKind(w.objects[id].kind)
    ensures var slots := PartialSlots(w, raw, done, id);
            Partial(w, raw, done + {id}) ==
            Partial(w, raw, done)[id := slots.(exits := RebuiltSlots(w, raw, id).exits)]
  {
    forall x | x in w.objects && x != id
      ensures PartialSlots(w, raw, done + {id}, x) == PartialSlots(w, raw, done, x)
    {
    }
  }

  lemma PartialStartsEmptyEndsRebuilt(w: World, raw: Links)
    ensures Partial(w, raw, {}) == map id | id in w.objects :: EMPTY
    ensures Partial(w, raw, w.objects.Keys) == Rebuilt(w, raw)
  {
    forall id | id in w.objects
      ensures PartialSlots(w, raw, {}, id) == EMPTY
      ensures PartialSlots(w, raw, w.objects.Keys, id) == RebuiltSlots(w, raw, id)
    {
    }
  }

  /** Rebuild every slot in place, keeping surviving members in order and appending the rest. */
  method RebuildLinks(w: World, raw: Links) returns (links: Links)
    ensures links == Rebuilt(w, raw)
  {
    links := map id | id in w.objects :: EMPTY;
    var ids := Ascending(w.objects.Keys);
    PartialStartsEmptyEndsRebuilt(w, raw);
    AscendingElements(w.objects.Keys);
    ghost var done: set<nat> := {};
    for k := 0 to |ids|
      invariant done == Elements(ids[..k]) && links == Partial(w, raw, done)
    {
      AscendingPrefix(w.objects.Keys, k);
      links := RebuildAt(w, raw, links, ids[k], done);
      done := done + {ids[k]};
    }
  }

  /** One object's turn: an exit stores its source, a container writes both of its lists. */
  method RebuildAt(w: World, raw: Links, before: Links, id: nat, ghost done: set<nat>) returns (links: Links)
    requires id in w.objects && id !in done && before == Partial(w, raw, done)
    ensures links == Partial(w, raw, done + {id})
  {
    links := before;
    var o := w.objects[id];
    if o.kind.Exit? {
      links := links[id := links[id].(exits := if o.location.Some? then o.location.value else -1)];
    }
    if !ContainerKind(o.kind) {
      ListlessAdvance(w, raw, done, id);
      var slots := PartialSlots(w, raw, done, id).(exits := RebuiltSlots(w, raw, id).exits);
      assert links == Partial(w, raw, done)[id := slots];
      return;
    }
    OrderedMembersListMembersOnce(w, raw, id, false);
    OrderedMembersListMembersOnce(w, raw, id, true);
    WrittenListsAdvance(w, raw, done, id);
    links := WriteList(links, id, false, OrderedMembers(w, raw, id, false));
    links := WriteList(links, id, true, OrderedMembers(w, raw, id, true));
  }

  // ----- Round trip

  lemma {:induction false} LinkedOrderIsWalked(w: World, links: Links, order: seq<nat>, i: nat, ofExits: bool)
    requires Distinct(order) && i <= |order|
    requires forall id :: id in order ==> id in w.objects && MemberKind(w.objects[id].kind, ofExits)
    requires forall k :: 0 <= k < |order| ==> NextSlot(links, order[k]) == First(order[k + 1..])
    ensures ChainFrom(w, links, First(order[i..]), ofExits, Elements(order[..i])) == order[i..]
    decreases |order| - i
  {
    if i < |order| {
      assert order[i] !in Elements(order[..i]) && order[i] in order;
      LinkedOrderIsWalked(w, links, order, i + 1, ofExits);
      ElementsOfPrefix(order, i);
      assert order[i..] == [order[i]] + order[i + 1..];
    }
  }

  lemma RebuiltNextFollowsOrder(w: World, raw: Links, owner: nat, ofExits: bool, k: nat)
    requires owner in w.objects && ContainerKind(w.objects[owner].kind)
    requires k < |OrderedMembers(w, raw, owner, ofExits)|
    ensures var order := OrderedMembers(w, raw, owner, ofExits);
            NextSlot(Rebuilt(w, raw), order[k]) == First(order[k + 1..])
  {
    var order := OrderedMembers(w, raw, owner, ofExits);
    ListedIffMember(w, raw, owner, ofExits, order[k]);
    OrderedMembersListMembersOnce(w, raw, owner, ofExits);
    NextAfterAt(order, k);
  }

  /** Walking a rebuilt list returns exactly the ordered members it was built from. */
  lemma RebuiltListsRoundTrip(w: World, raw: Links, owner: nat, ofExits: bool)
    requires owner in w.objects && ContainerKind(w.objects[owner].kind)
    ensures Chain(w, Rebuilt(w, raw), owner, ofExits) == OrderedMembers(w, raw, owner, ofExits)
  {
    var order := OrderedMembers(w, raw, owner, ofExits);
    OrderedMembersListMembersOnce(w, raw, owner, ofExits);
    forall k | 0 <= k < |order|
      ensures NextSlot(Rebuilt(w, raw), order[k]) == First(order[k + 1..])
    {
      RebuiltNextFollowsOrder(w, raw, owner, ofExits, k);
    }
    LinkedOrderIsWalked(w, Rebuilt(w, raw), order, 0, ofExits);
    assert order[0..] == order && Elements(order[..0]) == {};
  }

  /** Slots no container's list uses: an exit stores where it leads from, and everything else is -1. */
  lemma RebuiltSpareSlots(w: World, raw: Links, id: nat)
    requires id in w.objects
    ensures Rebuilt(w, raw).Keys == w.objects.Keys
    ensures var o, slots := w.objects[id], Rebuilt(w, raw)[id];
            (o.kind.Exit? || o.kind.Garbage? ==> slots.contents == -1) &&
            (o.kind.Exit? ==> slots.exits == if o.location.Some? then o.location.value else -1) &&
            (o.kind.Garbage? ==> slots.exits == -1) &&
            ((forall owner: nat, ofExits: bool :: owner in w.objects && ContainerKind(w.objects[owner].kind) ==>
                id !in Chain(w, Rebuilt(w, raw), owner, ofExits)) ==> slots.next == -1)
  {
    var o := w.objects[id];
    if o.location.Some? && ListedIn(w, id, o.location.value) {
      RebuiltListsRoundTrip(w, raw, o.location.value, o.kind.Exit?);
      ListedIffMember(w, raw, o.location.value, o.kind.Exit?, id);
      assert id in Chain(w, Rebuilt(w, raw), o.location.value, o.kind.Exit?);
    }
  }

  lemma RebuiltMembersKeepOrder(w: World, raw: Links, owner: nat, ofExits: bool)
    requires owner in w.objects && ContainerKind(w.objects[owner].kind)
    ensures OrderedMembers(w, Rebuilt(w, raw), owner, ofExits) == OrderedMembers(w, raw, owner, ofExits)
  {
    var order := OrderedMembers(w, raw, owner, ofExits);
    var members := Members(w, owner, ofExits);
    OrderedMembersListMembersOnce(w, raw, owner, ofExits);
    RebuiltListsRoundTrip(w, raw, owner, ofExits);
    FilterAll((id: nat) => id in members, order);
    assert (members - Elements(order)) == {};
    assert Retained(w, Rebuilt(w, raw), owner, ofExits) == order;
  }

  /** Rebuilding from rebuilt lists changes nothing. */
  lemma RebuildingTwiceIsRebuildingOnce(w: World, raw: Links)
    ensures Rebuilt(w, Rebuilt(w, raw)) == Rebuilt(w, raw)
  {
    forall id | id in w.objects
      ensures RebuiltSlots(w, Rebuilt(w, raw), id) == RebuiltSlots(w, raw, id)
    {
      var o := w.objects[id];
      if ContainerKind(o.kind) {
        RebuiltMembersKeepOrder(w, raw, id, false);
        RebuiltMembersKeepOrder(w, raw, id, true);
      }
      if o.location.Some? && ListedIn(w, id, o.location.value) {
        RebuiltMembersKeepOrder(w, raw, o.location.value, o.kind.Exit?);
      }
    }
  }
}
