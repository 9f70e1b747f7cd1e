/** Rooms reachable from the starting room by following surviving exits. */
module Reachability {
  import opened Prelude
  import opened Worlds

  predicate Leads(w: World, exit: nat, source: int, dest: int) {
    exit in w.objects && w.objects[exit].kind.Exit? &&
    w.objects[exit].location == Some(source) && w.objects[exit].destination == Some(dest)
  }

  /** A list of exits, each leaving the place the previous one entered, from `start` to `dest`. */
  ghost predicate Route(w: World, start: int, exits: seq<nat>, dest: int) {
    if exits == [] then dest == start
    else
      var last := exits[|exits| - 1];
      last in w.objects && w.objects[last].location.Some? &&
      Leads(w, last, w.objects[last].location.value, dest) &&
      Route(w, start, exits[..|exits| - 1], w.objects[last].location.value)
  }

  ghost predicate Connected(w: World, start: int, dest: int) { exists exits :: Route(w, start, exits, dest) }

  ghost predicate Closed(w: World, places: set<int>) {
    forall exit, source, dest :: source in places && Leads(w, exit, source, dest) ==> dest in places
  }

  function Destinations(w: World): set<int> {
    set id | id in w.objects && w.objects[id].kind.Exit? && w.objects[id].destination.Some? ::
      w.objects[id].destination.value
  }

  ghost function Reachable(w: World, start: int): set<int> {
    set d | d in {start} + Destinations(w) && Connected(w, start, d)
  }

  lemma StartIsConnected(w: World, start: int)
    ensures Connected(w, start, start)
  {
    assert Route(w, start, [], start);
  }

  lemma ConnectedExtends(w: World, start: int, exit: nat, source: int, dest: int)
    requires Connected(w, start, source) && Leads(w, exit, source, dest)
    ensures Connected(w, start, dest)
  {
    var exits :| Route(w, start, exits, source);
    assert (exits + [exit])[..|exits|] == exits;
    assert Route(w, start, exits + [exit], dest);
  }

  lemma {:induction false} RouteStaysInside(w: World, start: int, exits: seq<nat>, dest: int, places: set<int>)
    requires Route(w, start, exits, dest) && start in places && Closed(w, places)
    ensures dest in places
    decreases |exits|
  {
    if exits != [] {
      var last := exits[|exits| - 1];
      RouteStaysInside(w, start, exits[..|exits| - 1], w.objects[last].location.value, places);
    }
  }

  /** The reachable places are the least set holding the start and closed under exits. */
  lemma ReachableIsLeastClosed(w: World, start: int)
    ensures start in Reachable(w, start) && Closed(w, Reachable(w, start))
    ensures forall d :: d in Reachable(w, start) <==> Connected(w, start, d)
    ensures forall places: set<int> :: start in places && Closed(w, places) ==> Reachable(w, start) <= places
  {
    StartIsConnected(w, start);
    forall exit, source, dest | source in Reachable(w, start) && Leads(w, exit, source, dest)
      ensures dest in Reachable(w, start)
    {
      ConnectedExtends(w, start, exit, source, dest);
      assert dest in Destinations(w);
    }
    forall d, places: set<int> | Connected(w, start, d) && start in places && Closed(w, places)
      ensures d in places
    {
      var exits :| Route(w, start, exits, d);
      RouteStaysInside(w, start, exits, d, places);
    }
  }

  ghost predicate AllConnected(w: World, start: int, places: set<int>) {
    forall d :: d in places ==> Connected(w, start, d)
  }

  /** One ascending pass over the exits, following those that leave a place already reached. */
  method FollowExits(w: World, start: int, exits: seq<nat>, places: set<int>) returns (r: set<int>)
    requires (forall e :: e in exits ==> e in w.objects) && AllConnected(w, start, places)
    ensures places <= r <= places + Destinations(w) && AllConnected(w, start, r)
    ensures forall e, source, dest :: e in exits && source in places && Leads(w, e, source, dest) ==> dest in r
  {
    r := places;
    for i := 0 to |exits|
      invariant places <= r <= places + Destinations(w) && AllConnected(w, start, r)
      invariant forall e, source, dest :: e in exits[..i] && source in places && Leads(w, e, source, dest) ==> dest in r
    {
      var o := w.objects[exits[i]];
      assert exits[..i + 1] == exits[..i] + [exits[i]];
      if o.kind.Exit? && o.location.Some? && o.location.value in r && o.destination.Some? {
        ConnectedExtends(w, start, exits[i], o.location.value, o.destination.value);
        r := r + {o.destination.value};
      }
    }
    assert exits[..|exits|] == exits;
  }

  lemma ClosedConnectedIsReachable(w: World, start: int, places: set<int>)
    requires start in places && AllConnected(w, start, places) && Closed(w, places)
    ensures places == Reachable(w, start)
  {
    ReachableIsLeastClosed(w, start);
    assert Reachable(w, start) <= places;
    assert forall d :: d in places ==> d in Reachable(w, start);
  }

  /** Repeat ascending passes over the exits until one adds nothing. */
  method FindReachable(w: World, start: int) returns (reachable: set<int>)
    ensures reachable == Reachable(w, start)
  {
    reachable := {start};
    StartIsConnected(w, start);
    ghost var all := {start} + Destinations(w);
    var exits := Ascending(w.objects.Keys);
    while true
      invariant start in reachable && reachable <= all && AllConnected(w, start, reachable)
      decreases |all| - |reachable|
    {
      var grown := FollowExits(w, start, exits, reachable);
      SizeOfPart(reachable, grown);
      SizeOfPart(grown, all);
      if |grown| == |reachable| {
        ClosedConnectedIsReachable(w, start, reachable);
        return;
      }
      reachable := grown;
    }
  }
}
