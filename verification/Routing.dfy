/** Who hears a message: its target, and the visits that target forwards it to. */
module Routing {
  import opened Prelude
  import opened Worlds

  type Document = string

  type Delivery = (nat, Document)

  /** Routing directives, one per bit of the legacy key. */
  datatype Policy = Policy(
    me: bool, inventory: bool, exits: bool, neighbors: bool, place: bool, neighborExits: bool, inside: bool)

  const ONLY_ME := Policy(true, false, false, false, false, false, false)
  const ROOM_EXCLUDED := Policy(true, false, true, true, true, true, true)
  const DISTANT := Policy(true, true, false, true, true, false, true)
  const OUTWARD := Policy(true, false, false, true, true, false, true)

  datatype Request = Request(target: int, document: Document, policy: Policy, exclusions: Option<seq<int>>)

  datatype Visit = Visit(target: int, document: Document, policy: Policy, depth: nat)

  // ----- One visit

  predicate Visitable(w: World, id: int) {
    id in w.objects && !w.objects[id].kind.Garbage? && !w.objects[id].kind.Exit?
  }

  predicate Expands(w: World, recursion: int, v: Visit) {
    v.document != "" && v.depth < recursion && Visitable(w, v.target)
  }

  function Own(w: World, recursion: int, v: Visit): seq<Delivery> {
    if Expands(w, recursion, v) && v.policy.me && w.objects[v.target].kind.Player?
    then [(v.target, v.document)] else []
  }

  function AudibleExits(w: World, ids: seq<nat>, place: int): seq<nat> {
    Filter((e: nat) => e in w.objects && w.objects[e].kind.Exit? && w.objects[e].location == Some(place) &&
                       Audible in w.objects[e].flags, ids)
  }

  function Occupants(w: World, ids: seq<nat>, place: int, except: set<int>): seq<nat> {
    Filter((o: nat) => Visitable(w, o) && w.objects[o].location == Some(place) && o !in except, ids)
  }

  function Through(w: World, exits: seq<nat>, avoid: set<int>, document: Document, depth: nat): (r: seq<Visit>)
    ensures forall v :: v in r ==> v.depth == depth
  {
    if exits == [] then [] else
      (if exits[0] in w.objects && w.objects[exits[0]].destination.Some? &&
          w.objects[exits[0]].destination.value !in avoid
       then [Visit(w.objects[exits[0]].destination.value, document, DISTANT, depth)] else []) +
      Through(w, exits[1..], avoid, document, depth)
  }

  function ToEach(ids: seq<nat>, document: Document, depth: nat): (r: seq<Visit>)
    ensures forall v :: v in r ==> v.depth == depth
  {
    if ids == [] then [] else [Visit(ids[0], document, ONLY_ME, depth)] + ToEach(ids[1..], document, depth)
  }

  const FROM_AFAR: Document := "From a distance, "

  function Distant(document: Document): Document { FROM_AFAR + document }

  function Forwarded(w: World, v: Visit): Document
    requires Visitable(w, v.target)
  {
    if v.policy.inside then "From " + w.objects[v.target].name + ", " + v.document else v.document
  }

  /** The place an audible visit is overheard in. */
  function Outside(w: World, v: Visit): Option<int>
    requires Visitable(w, v.target)
  {
    if Audible in w.objects[v.target].flags then w.objects[v.target].location else None
  }

  function ByExits(w: World, ids: seq<nat>, v: Visit): (r: seq<Visit>)
    requires Visitable(w, v.target)
    ensures forall c :: c in r ==> c.depth == v.depth + 1
  {
    if v.policy.exits
    then Through(w, AudibleExits(w, ids, v.target), {v.target}, Distant(v.document), v.depth + 1) else []
  }

  function ByNeighborExits(w: World, ids: seq<nat>, v: Visit): (r: seq<Visit>)
    requires Visitable(w, v.target)
    ensures forall c :: c in r ==> c.depth == v.depth + 1
  {
    var place := Outside(w, v);
    if place.Some? && v.policy.neighborExits
    then Through(w, AudibleExits(w, ids, place.value), {place.value, v.target}, Distant(Forwarded(w, v)), v.depth + 1)
    else []
  }

  function ByInventory(w: World, ids: seq<nat>, v: Visit): (r: seq<Visit>)
    requires Visitable(w, v.target)
    ensures forall c :: c in r ==> c.depth == v.depth + 1
  {
    if v.policy.inventory then ToEach(Occupants(w, ids, v.target, {v.target}), v.document, v.depth + 1) else []
  }

  function ByNeighbors(w: World, ids: seq<nat>, v: Visit): (r: seq<Visit>)
    requires Visitable(w, v.target)
    ensures forall c :: c in r ==> c.depth == v.depth + 1
  {
    var place := Outside(w, v);
    if place.Some? && v.policy.neighbors
    then ToEach(Occupants(w, ids, place.value, {v.target, place.value}), Forwarded(w, v), v.depth + 1) else []
  }

  function ByPlace(w: World, v: Visit): (r: seq<Visit>)
    requires Visitable(w, v.target)
    ensures forall c :: c in r ==> c.depth == v.depth + 1
  {
    var place := Outside(w, v);
    if place.Some? && v.policy.place then [Visit(place.value, Forwarded(w, v), OUTWARD, v.depth + 1)] else []
  }

  /** Where a delivered visit forwards its message, in order. */
  function Children(w: World, ids: seq<nat>, v: Visit): (r: seq<Visit>)
    requires Visitable(w, v.target)
    ensures forall c :: c in r ==> c.depth == v.depth + 1
  {
    ByExits(w, ids, v) + ByNeighborExits(w, ids, v) + ByInventory(w, ids, v) + ByNeighbors(w, ids, v) + ByPlace(w, v)
  }

  /** An audible exit leads from `place` to `to`, unless that is somewhere to avoid. */
  ghost predicate LeadsOut(w: World, place: int, avoid: set<int>, to: int) {
    to !in avoid &&
    exists e :: e in w.objects && w.objects[e].kind.Exit? && w.objects[e].location == Some(place) &&
                Audible in w.objects[e].flags && w.objects[e].destination == Some(to)
  }

  predicate Within(w: World, id: int, place: int) { Visitable(w, id) && w.objects[id].location == Some(place) }

  /** The five ways a message travels on, stated without any order. */
  ghost predicate Forwards(w: World, v: Visit, c: Visit)
    requires Visitable(w, v.target)
  {
    var to, near, over := c.target, v.document, Forwarded(w, v);
    var place, depth := Outside(w, v), v.depth + 1;
    (v.policy.exits && c == Visit(to, Distant(near), DISTANT, depth) && LeadsOut(w, v.target, {v.target}, to)) ||
    (v.policy.neighborExits && place.Some? && c == Visit(to, Distant(over), DISTANT, depth) &&
     LeadsOut(w, place.value, {place.value, v.target}, to)) ||
    (v.policy.inventory && c == Visit(to, near, ONLY_ME, depth) && Within(w, to, v.target) && to != v.target) ||
    (v.policy.neighbors && place.Some? && c == Visit(to, over, ONLY_ME, depth) &&
     Within(w, to, place.value) && to != v.target && to != place.value) ||
    (v.policy.place && place.Some? && c == Visit(place.value, over, OUTWARD, depth))
  }

  lemma {:induction false} ThroughExactly(
    w: World, exits: seq<nat>, avoid: set<int>, document: Document, depth: nat, c: Visit)
    ensures c in Through(w, exits, avoid, document, depth) <==>
            c == Visit(c.target, document, DISTANT, depth) && c.target !in avoid &&
            exists e :: e in exits && e in w.objects && w.objects[e].destination == Some(c.target)
  {
    if exits != [] {
      assert exits == [exits[0]] + exits[1..];
      ThroughExactly(w, exits[1..], avoid, document, depth, c);
    }
  }

  lemma {:induction false} ToEachExactly(ids: seq<nat>, document: Document, depth: nat, c: Visit)
    ensures c in ToEach(ids, document, depth) <==> c.target in ids && c == Visit(c.target, document, ONLY_ME, depth)
  {
    if ids != [] {
      assert ids == [ids[0]] + ids[1..];
      ToEachExactly(ids[1..], document, depth, c);
    }
  }

  /** Identities of the world's objects, in some order. */
  ghost predicate Lists(w: World, ids: seq<nat>) { forall id :: id in ids <==> id in w.objects }

  lemma DistantExactly(
    w: World, ids: seq<nat>, place: int, avoid: set<int>, document: Document, depth: nat, c: Visit)
    requires Lists(w, ids)
    ensures c in Through(w, AudibleExits(w, ids, place), avoid, document, depth) <==>
            c == Visit(c.target, document, DISTANT, depth) && LeadsOut(w, place, avoid, c.target)
  {
    ThroughExactly(w, AudibleExits(w, ids, place), avoid, document, depth, c);
  }

  lemma OccupantsExactly(
    w: World, ids: seq<nat>, place: int, except: set<int>, document: Document, depth: nat, c: Visit)
    requires Lists(w, ids)
    ensures c in ToEach(Occupants(w, ids, place, except), document, depth) <==>
            c == Visit(c.target, document, ONLY_ME, depth) && Within(w, c.target, place) && c.target !in except
  {
    ToEachExactly(Occupants(w, ids, place, except), document, depth, c);
  }

  lemma ExitsExactly(w: World, ids: seq<nat>, v: Visit, c: Visit)
    requires Visitable(w, v.target) && Lists(w, ids)
    ensures c in ByExits(w, ids, v) <==>
            v.policy.exits && c == Visit(c.target, Distant(v.document), DISTANT, v.depth + 1) &&
            LeadsOut(w, v.target, {v.target}, c.target)
  {
    DistantExactly(w, ids, v.target, {v.target}, Distant(v.document), v.depth + 1, c);
  }

  lemma NeighborExitsExactly(w: World, ids: seq<nat>, v: Visit, c: Visit)
    requires Visitable(w, v.target) && Lists(w, ids)
    ensures c in ByNeighborExits(w, ids, v) <==>
            v.policy.neighborExits && Outside(w, v).Some? &&
            c == Visit(c.target, Distant(Forwarded(w, v)), DISTANT, v.depth + 1) &&
            LeadsOut(w, Outside(w, v).value, {Outside(w, v).value, v.target}, c.target)
  {
    if Outside(w, v).Some? {
      var place, heard := Outside(w, v).value, Distant(Forwarded(w, v));
      DistantExactly(w, ids, place, {place, v.target}, heard, v.depth + 1, c);
    }
  }

  lemma InventoryExactly(w: World, ids: seq<nat>, v: Visit, c: Visit)
    requires Visitable(w, v.target) && Lists(w, ids)
    ensures c in ByInventory(w, ids, v) <==>
            v.policy.inventory && c == Visit(c.target, v.document, ONLY_ME, v.depth + 1) &&
            Within(w, c.target, v.target) && c.target != v.target
  {
    OccupantsExactly(w, ids, v.target, {v.target}, v.document, v.depth + 1, c);
  }

  lemma NeighborsExactly(w: World, ids: seq<nat>, v: Visit, c: Visit)
    requires Visitable(w, v.target) && Lists(w, ids)
    ensures c in ByNeighbors(w, ids, v) <==>
            v.policy.neighbors && Outside(w, v).Some? && c == Visit(c.target, Forwarded(w, v), ONLY_ME, v.depth + 1) &&
            Within(w, c.target, Outside(w, v).value) && c.target != v.target && c.target != Outside(w, v).value
  {
    if Outside(w, v).Some? {
      var place := Outside(w, v).value;
      OccupantsExactly(w, ids, place, {v.target, place}, Forwarded(w, v), v.depth + 1, c);
    }
  }

  /** A visit is forwarded to exactly the places its policy, audibility and surroundings allow. */
  lemma ChildrenExactly(w: World, ids: seq<nat>, v: Visit, c: Visit)
    requires Visitable(w, v.target) && Lists(w, ids)
    ensures c in Children(w, ids, v) <==> Forwards(w, v, c)
  {
    ExitsExactly(w, ids, v, c);
    NeighborExitsExactly(w, ids, v, c);
    InventoryExactly(w, ids, v, c);
    NeighborsExactly(w, ids, v, c);
  }

  /** Where a visit leads, or nowhere when it is empty, too deep or unaddressable. */
  function Onward(w: World, ids: seq<nat>, recursion: int, v: Visit): seq<Visit> {
    if Expands(w, recursion, v) then Children(w, ids, v) else []
  }

  // ----- Where a request starts

  /** The visits a request starts from: the excluded form lists the place, then its occupants. */
  function Initial(w: World, r: Request): (visits: seq<Visit>)
    ensures forall v :: v in visits ==> v.depth == 1
  {
    if r.exclusions.None? then [Visit(r.target, r.document, r.policy, 1)] else
      var excluded := Elements(r.exclusions.value);
      (if r.target in excluded then [] else [Visit(r.target, r.document, ROOM_EXCLUDED, 1)]) +
      ToEach(Occupants(w, Ascending(w.objects.Keys), r.target, excluded), r.document, 1)
  }

  /** The occupants an excluding request starts with, queued before its target. */
  function FirstOccupants(w: World, r: Request): seq<Visit> {
    if r.exclusions.None? then []
    else ToEach(Occupants(w, Ascending(w.objects.Keys), r.target, Elements(r.exclusions.value)), r.document, 1)
  }

  /** A visit a request starts from: its target, and with exclusions the unexcluded occupants. */
  ghost predicate Starts(w: World, r: Request, c: Visit) {
    c.document == r.document && c.depth == 1 &&
    if r.exclusions.None? then c.target == r.target && c.policy == r.policy
    else
      c.target !in r.exclusions.value &&
      ((c.target == r.target && c.policy == Policy(true, false, true, true, true, true, true)) ||
       (Within(w, c.target, r.target) && c.policy == ONLY_ME))
  }

  lemma AscendingLists(w: World)
    ensures Lists(w, Ascending(w.objects.Keys))
  {
  }

  /** A request starts from exactly these visits. */
  lemma InitialExactly(w: World, r: Request, c: Visit)
    ensures c in Initial(w, r) <==> Starts(w, r, c)
  {
    if r.exclusions.Some? {
      AscendingLists(w);
      OccupantsExactly(w, Ascending(w.objects.Keys), r.target, Elements(r.exclusions.value), r.document, 1, c);
      assert c.target in Elements(r.exclusions.value) <==> c.target in r.exclusions.value;
    }
  }

  // ----- In what order

  /** Visits made one for each chosen identity, in ascending order. */
  ghost predicate Enumerates(visits: seq<Visit>, chosen: nat -> bool, made: nat -> Visit) {
    exists ids: seq<nat> :: EnumeratedBy(visits, chosen, made, ids)
  }

  ghost predicate EnumeratedBy(visits: seq<Visit>, chosen: nat -> bool, made: nat -> Visit, ids: seq<nat>) {
    Increasing(ids) && (forall id :: id in ids <==> chosen(id)) && |visits| == |ids| &&
    forall i :: 0 <= i < |ids| ==> visits[i] == made(ids[i])
  }

  ghost function IsOccupant(w: World, place: int, except: set<int>): nat -> bool {
    (o: nat) => Within(w, o, place) && o !in except
  }

  ghost function ToOccupant(document: Document, depth: nat): nat -> Visit {
    (o: nat) => Visit(o, document, ONLY_ME, depth)
  }

  /** An audible exit of `place` that leads somewhere not to be avoided. */
  ghost function IsWayOut(w: World, place: int, avoid: set<int>): nat -> bool {
    (e: nat) =>
      e in w.objects && w.objects[e].kind.Exit? && w.objects[e].location == Some(place) &&
      Audible in w.objects[e].flags && w.objects[e].destination.Some? && w.objects[e].destination.value !in avoid
  }

  ghost function ToFarSide(w: World, heard: Document, depth: nat): nat -> Visit {
    (e: nat) =>
      Visit(if e in w.objects && w.objects[e].destination.Some? then w.objects[e].destination.value else -1,
            heard, DISTANT, depth)
  }

  lemma {:induction false} ToEachAt(ids: seq<nat>, document: Document, depth: nat)
    ensures |ToEach(ids, document, depth)| == |ids|
    ensures forall i :: 0 <= i < |ids| ==> ToEach(ids, document, depth)[i] == Visit(ids[i], document, ONLY_ME, depth)
  {
    if ids != [] {
      ToEachAt(ids[1..], document, depth);
    }
  }

  lemma OccupantsInOrder(w: World, ids: seq<nat>, place: int, except: set<int>, document: Document, depth: nat)
    requires Lists(w, ids) && Increasing(ids)
    ensures Enumerates(ToEach(Occupants(w, ids, place, except), document, depth), IsOccupant(w, place, except),
                       ToOccupant(document, depth))
  {
    var inside := Occupants(w, ids, place, except);
    FilterIncreasing((o: nat) => Visitable(w, o) && w.objects[o].location == Some(place) && o !in except, ids);
    ToEachAt(inside, document, depth);
    assert EnumeratedBy(ToEach(inside, document, depth), IsOccupant(w, place, except),
                        ToOccupant(document, depth), inside);
  }

  ghost function FarSides(w: World, exits: seq<nat>, heard: Document, depth: nat): (r: seq<Visit>)
    ensures |r| == |exits| && forall i :: 0 <= i < |r| ==> r[i] == ToFarSide(w, heard, depth)(exits[i])
  {
    if exits == [] then [] else [ToFarSide(w, heard, depth)(exits[0])] + FarSides(w, exits[1..], heard, depth)
  }

  ghost function Leading(w: World, avoid: set<int>): nat -> bool {
    (e: nat) => e in w.objects && w.objects[e].destination.Some? && w.objects[e].destination.value !in avoid
  }

  lemma {:induction false} ThroughIs(w: World, exits: seq<nat>, avoid: set<int>, heard: Document, depth: nat)
    ensures Through(w, exits, avoid, heard, depth) == FarSides(w, Filter(Leading(w, avoid), exits), heard, depth)
  {
    if exits != [] {
      ThroughIs(w, exits[1..], avoid, heard, depth);
      var used := Filter(Leading(w, avoid), exits);
      if Leading(w, avoid)(exits[0]) {
        assert used[0] == exits[0] && used[1..] == Filter(Leading(w, avoid), exits[1..]);
      }
    }
  }

  lemma DistantInOrder(w: World, ids: seq<nat>, place: int, avoid: set<int>, heard: Document, depth: nat)
    requires Lists(w, ids) && Increasing(ids)
    ensures Enumerates(Through(w, AudibleExits(w, ids, place), avoid, heard, depth), IsWayOut(w, place, avoid),
                       ToFarSide(w, heard, depth))
  {
    FilterIncreasing((e: nat) => e in w.objects && w.objects[e].kind.Exit? && w.objects[e].location == Some(place) &&
                                 Audible in w.objects[e].flags, ids);
    var exits := AudibleExits(w, ids, place);
    var used := Filter(Leading(w, avoid), exits);
    FilterIncreasing(Leading(w, avoid), exits);
    ThroughIs(w, exits, avoid, heard, depth);
    assert EnumeratedBy(Through(w, exits, avoid, heard, depth), IsWayOut(w, place, avoid),
                        ToFarSide(w, heard, depth), used);
  }

  /** The unexcluded target, then the unexcluded occupants in ascending order. */
  lemma InitialInOrder(w: World, r: Request)
    requires r.exclusions.Some?
    ensures var all, excluded := Initial(w, r), Elements(r.exclusions.value);
            var first := if r.target in r.exclusions.value then 0 else 1;
            |all| >= first && (first == 1 ==> all[0].target == r.target && all[0].policy == ROOM_EXCLUDED) &&
            all[first..] == FirstOccupants(w, r) &&
            Enumerates(FirstOccupants(w, r), IsOccupant(w, r.target, excluded), ToOccupant(r.document, 1))
  {
    AscendingLists(w);
    var all, excluded := Initial(w, r), Elements(r.exclusions.value);
    OccupantsInOrder(w, Ascending(w.objects.Keys), r.target, excluded, r.document, 1);
    var occupants := ToEach(Occupants(w, Ascending(w.objects.Keys), r.target, excluded), r.document, 1);
    assert r.target in excluded <==> r.target in r.exclusions.value;
    assert all[if r.target in r.exclusions.value then 0 else 1..] == occupants;
  }

  ghost predicate EnumeratesIf(on: bool, visits: seq<Visit>, chosen: nat -> bool, made: nat -> Visit) {
    if on then Enumerates(visits, chosen, made) else visits == []
  }

  lemma ByExitsInOrder(w: World, ids: seq<nat>, v: Visit)
    requires Visitable(w, v.target) && Lists(w, ids) && Increasing(ids)
    ensures EnumeratesIf(v.policy.exits, ByExits(w, ids, v), IsWayOut(w, v.target, {v.target}),
                         ToFarSide(w, Distant(v.document), v.depth + 1))
  {
    DistantInOrder(w, ids, v.target, {v.target}, Distant(v.document), v.depth + 1);
  }

  lemma ByNeighborExitsInOrder(w: World, ids: seq<nat>, v: Visit, at: int)
    requires Visitable(w, v.target) && Lists(w, ids) && Increasing(ids)
    requires Outside(w, v).Some? ==> at == Outside(w, v).value
    ensures EnumeratesIf(v.policy.neighborExits && Outside(w, v).Some?, ByNeighborExits(w, ids, v),
                         IsWayOut(w, at, {at, v.target}), ToFarSide(w, Distant(Forwarded(w, v)), v.depth + 1))
  {
    DistantInOrder(w, ids, at, {at, v.target}, Distant(Forwarded(w, v)), v.depth + 1);
  }

  lemma ByInventoryInOrder(w: World, ids: seq<nat>, v: Visit)
    requires Visitable(w, v.target) && Lists(w, ids) && Increasing(ids)
    ensures EnumeratesIf(v.policy.inventory, ByInventory(w, ids, v), IsOccupant(w, v.target, {v.target}),
                         ToOccupant(v.document, v.depth + 1))
  {
    OccupantsInOrder(w, ids, v.target, {v.target}, v.document, v.depth + 1);
  }

  lemma ByNeighborsInOrder(w: World, ids: seq<nat>, v: Visit, at: int)
    requires Visitable(w, v.target) && Lists(w, ids) && Increasing(ids)
    requires Outside(w, v).Some? ==> at == Outside(w, v).value
    ensures EnumeratesIf(v.policy.neighbors && Outside(w, v).Some?, ByNeighbors(w, ids, v),
                         IsOccupant(w, at, {v.target, at}), ToOccupant(Forwarded(w, v), v.depth + 1))
  {
    OccupantsInOrder(w, ids, at, {v.target, at}, Forwarded(w, v), v.depth + 1);
  }

  /** Where an audible object is overheard from: the place it is in. */
  ghost predicate OverheardIn(w: World, v: Visit, place: Option<int>)
    requires Visitable(w, v.target)
  {
    place == if Audible in w.objects[v.target].flags then w.objects[v.target].location else None
  }

  /**
   * Forwarding goes out by the exits, by the neighbouring exits, to the contents, to the
   * neighbours and to the place, each in ascending order and once for each.
   */
  lemma ChildrenInOrder(w: World, ids: seq<nat>, v: Visit, place: Option<int>, at: int)
    returns (exits: seq<Visit>, around: seq<Visit>, inside: seq<Visit>, beside: seq<Visit>, above: seq<Visit>)
    requires Visitable(w, v.target) && Lists(w, ids) && Increasing(ids)
    requires OverheardIn(w, v, place) && (place.Some? ==> at == place.value)
    ensures Children(w, ids, v) == exits + around + inside + beside + above
    ensures EnumeratesIf(v.policy.exits, exits, IsWayOut(w, v.target, {v.target}),
                         ToFarSide(w, Distant(v.document), v.depth + 1))
    ensures EnumeratesIf(v.policy.neighborExits && place.Some?, around, IsWayOut(w, at, {at, v.target}),
                         ToFarSide(w, Distant(Forwarded(w, v)), v.depth + 1))
    ensures EnumeratesIf(v.policy.inventory, inside, IsOccupant(w, v.target, {v.target}),
                         ToOccupant(v.document, v.depth + 1))
    ensures EnumeratesIf(v.policy.neighbors && place.Some?, beside, IsOccupant(w, at, {v.target, at}),
                         ToOccupant(Forwarded(w, v), v.depth + 1))
    ensures above == if v.policy.place && place.Some? then [Visit(at, Forwarded(w, v), OUTWARD, v.depth + 1)] else []
  {
    ByExitsInOrder(w, ids, v);
    ByNeighborExitsInOrder(w, ids, v, at);
    ByInventoryInOrder(w, ids, v);
    ByNeighborsInOrder(w, ids, v, at);
    exits, around, inside := ByExits(w, ids, v), ByNeighborExits(w, ids, v), ByInventory(w, ids, v);
    beside, above := ByNeighbors(w, ids, v), ByPlace(w, v);
  }
}
