/** World objects, containment traversal and administrative control. */
module Worlds {
  import opened Prelude

  datatype Kind = Room | Thing | Exit | Player | Garbage

  /** The flags some modelled rule reads; every other catalogue flag is an `Other`. */
  datatype Flag = Going | Wizard | Floating | Audible | Dark | Connected | Other(code: nat)

  /** Object references may dangle, so they are plain integers; stored identities are not negative. */
  datatype Object = Object(
    generation: nat,
    name: string,
    kind: Kind,
    location: Option<int>,
    zone: Option<int>,
    home: Option<int>,
    affiliation: Option<int>,
    destination: Option<int>,
    dropto: Option<int>,
    flags: set<Flag>)

  datatype Channel = Channel(users: seq<int>, owner: Option<int>)

  datatype World = World(
    objects: map<nat, Object>,
    accounts: set<nat>,
    channels: map<string, Channel>,
    channelAliases: map<int, seq<string>>,
    lastPages: map<int, seq<int>>)

  datatype Config = Config(startingRoom: int, startingHome: int, defaultHome: int)

  predicate ContainerKind(k: Kind) { k.Room? || k.Player? || k.Thing? }

  predicate OccupantKind(k: Kind) { k.Player? || k.Thing? }

  /** A room, thing or player that exists and is not marked GOING. */
  predicate Container(w: World, id: int) {
    id in w.objects && ContainerKind(w.objects[id].kind) && Going !in w.objects[id].flags
  }

  function Onto(chain: seq<nat>, rest: Option<seq<nat>>): Option<seq<nat>> {
    if rest.None? then None else Some(chain + rest.value)
  }

  /** Enclosing containers of `current`, refusing repeats, wrong kinds and dangling references. */
  function ContainmentFrom(w: World, current: Option<int>, seen: set<nat>): Option<seq<nat>>
    decreases w.objects.Keys - seen
  {
    if current.None? then Some([]) else
      var id := current.value;
      if id in seen || id !in w.objects || !ContainerKind(w.objects[id].kind) then None
      else if w.objects[id].kind.Room? then
        if w.objects[id].location.None? then Some([id]) else None
      else Onto([id], ContainmentFrom(w, w.objects[id].location, seen + {id}))
  }

  function Containment(w: World, start: Option<int>): Option<seq<nat>> {
    ContainmentFrom(w, start, {})
  }

  lemma OntoTwice(chain: seq<nat>, id: nat, rest: Option<seq<nat>>)
    ensures Onto(chain, Onto([id], rest)) == Onto(chain + [id], rest)
  {
    if rest.Some? {
      assert chain + ([id] + rest.value) == (chain + [id]) + rest.value;
    }
  }

  /** The traversal as the server runs it. */
  method ContainmentChain(w: World, start: Option<int>) returns (r: Option<seq<nat>>)
    ensures r == Containment(w, start)
  {
    var chain: seq<nat>, seen: set<nat>, current := [], {}, start;
    assert Onto([], Containment(w, start)) == Containment(w, start) by {
      if Containment(w, start).Some? {
        assert [] + Containment(w, start).value == Containment(w, start).value;
      }
    }
    while current.Some?
      invariant Containment(w, start) == Onto(chain, ContainmentFrom(w, current, seen))
      decreases w.objects.Keys - seen, current.Some?
    {
      var id := current.value;
      if id in seen || id !in w.objects || !ContainerKind(w.objects[id].kind) {
        return None;
      }
      var o := w.objects[id];
      if o.kind.Room? {
        if o.location.Some? {
          return None;
        }
        return Some(chain + [id]);
      }
      OntoTwice(chain, id, ContainmentFrom(w, o.location, seen + {id}));
      chain, seen, current := chain + [id], seen + {id}, o.location;
    }
    return Some(chain + []);
  }

  /** Every place enclosing `dest` is live, the last is a room, and none of them is `moved`. */
  predicate Safe(w: World, moved: int, dest: int) {
    match Containment(w, Some(dest))
    case None => false
    case Some(chain) =>
      moved !in chain && (forall id :: id in chain ==> Container(w, id)) &&
      chain != [] && chain[|chain| - 1] in w.objects && w.objects[chain[|chain| - 1]].kind.Room?
  }

  /** Legacy administrative control: narrower than Wizard authority. */
  predicate Controls(w: World, actor: int, target: int) {
    target in w.objects && !w.objects[target].kind.Garbage? &&
    (actor == 1 ||
     (actor in w.objects && Wizard in w.objects[actor].flags &&
      (actor == target || (target != 1 && Wizard !in w.objects[target].flags))))
  }

  /** Whether `moved` may be placed in `destination` at all. */
  predicate ValidMove(w: World, moved: int, destination: int) {
    moved in w.objects &&
    (OccupantKind(w.objects[moved].kind) || w.objects[moved].kind.Exit?) &&
    (match Containment(w, Some(destination))
     case None => false
     case Some(chain) => moved !in chain) &&
    Containment(w, w.objects[moved].location).Some?
  }

  // ----- Which placements keep chains sound

  /** Barring one more object fails exactly the chains that enter it. */
  lemma {:induction false} BarringOne(w: World, current: Option<int>, seen: set<nat>, x: nat)
    ensures var free, barred := ContainmentFrom(w, current, seen), ContainmentFrom(w, current, seen + {x});
            barred == if free.Some? && x !in free.value then free else None
    decreases w.objects.Keys - seen
  {
    if current.Some? && current.value in w.objects && current.value !in seen &&
       ContainerKind(w.objects[current.value].kind) {
      var id: nat := current.value;
      if !w.objects[id].kind.Room? && id != x {
        BarringOne(w, w.objects[id].location, seen + {id}, x);
        assert seen + {x} + {id} == seen + {id} + {x};
      }
    }
  }

  /** A barred object's own location is never read. */
  lemma {:induction false} BarredLocationIgnored(w: World, v: World, current: Option<int>, seen: set<nat>, x: nat)
    requires x in seen && w.objects.Keys == v.objects.Keys
    requires forall id :: id in w.objects && id != x ==> v.objects[id] == w.objects[id]
    ensures ContainmentFrom(v, current, seen) == ContainmentFrom(w, current, seen)
    decreases w.objects.Keys - seen
  {
    if current.Some? && current.value in w.objects && current.value !in seen &&
       ContainerKind(w.objects[current.value].kind) && !w.objects[current.value].kind.Room? {
      BarredLocationIgnored(w, v, w.objects[current.value].location, seen + {current.value}, x);
    }
  }

  /** Placing an occupant leaves it on a sound chain exactly where the move is valid. */
  lemma PlacementSoundIff(w: World, moved: nat, destination: int)
    requires moved in w.objects && OccupantKind(w.objects[moved].kind)
    requires Containment(w, w.objects[moved].location).Some?
    ensures var v := w.(objects := w.objects[moved := w.objects[moved].(location := Some(destination))]);
            Containment(v, Some(moved)).Some? <==> ValidMove(w, moved, destination)
  {
    var v := w.(objects := w.objects[moved := w.objects[moved].(location := Some(destination))]);
    BarredLocationIgnored(w, v, Some(destination), {moved}, moved);
    BarringOne(w, Some(destination), {}, moved);
    assert {} + {moved} == {moved};
  }

  // ----- A path-free account of safety

  /**
   * From `d`, exactly `n` location steps lead through live non-room containers to a live room
   * that itself has no location, never visiting `x`.
   */
  ghost predicate Grounded(w: World, x: int, d: int, n: nat)
    decreases n
  {
    d != x && Container(w, d) &&
    if w.objects[d].kind.Room? then n == 0 && w.objects[d].location.None?
    else n > 0 && w.objects[d].location.Some? && Grounded(w, x, w.objects[d].location.value, n - 1)
  }

  lemma {:induction false} GroundedDepthIsUnique(w: World, x: int, y: int, d: int, m: nat, n: nat)
    requires Grounded(w, x, d, m) && Grounded(w, y, d, n)
    ensures m == n
    decreases n
  {
    if m > 0 && n > 0 {
      GroundedDepthIsUnique(w, x, y, w.objects[d].location.value, m - 1, n - 1);
    }
  }

  /** A chain cannot revisit an object that lies deeper than its start. */
  lemma {:induction false} ShallowChainAvoidsDeeper(w: World, x: int, y: int, d: int, n: nat, deep: int, depth: nat)
    requires Grounded(w, x, d, n) && Grounded(w, y, deep, depth) && n < depth
    ensures Grounded(w, deep, d, n)
    decreases n
  {
    if d == deep {
      GroundedDepthIsUnique(w, x, y, d, n, depth);
    } else if n > 0 {
      ShallowChainAvoidsDeeper(w, x, y, w.objects[d].location.value, n - 1, deep, depth);
    }
  }

  lemma {:induction false} GroundedChainExists(w: World, x: int, d: int, n: nat, seen: set<nat>)
    requires Grounded(w, x, d, n)
    requires forall s, k: nat :: s in seen && Grounded(w, x, s, k) ==> n < k
    ensures ContainmentFrom(w, Some(d), seen).Some?
    ensures var chain := ContainmentFrom(w, Some(d), seen).value;
            x !in chain && |chain| == n + 1 && (forall id :: id in chain ==> Container(w, id)) &&
            chain[n] in w.objects && w.objects[chain[n]].kind.Room?
    decreases n
  {
    if n > 0 {
      forall s, k: nat | s in seen + {d} && Grounded(w, x, s, k)
        ensures n - 1 < k
      {
        if s == d {
          GroundedDepthIsUnique(w, x, x, d, n, k);
        }
      }
      GroundedChainExists(w, x, w.objects[d].location.value, n - 1, seen + {d});
    }
  }

  lemma {:induction false} ChainIsGrounded(w: World, x: int, d: int, seen: set<nat>)
    requires ContainmentFrom(w, Some(d), seen).Some?
    requires var chain := ContainmentFrom(w, Some(d), seen).value;
             x !in chain && (forall id :: id in chain ==> Container(w, id)) &&
             chain[|chain| - 1] in w.objects && w.objects[chain[|chain| - 1]].kind.Room?
    ensures Grounded(w, x, d, |ContainmentFrom(w, Some(d), seen).value| - 1)
    decreases w.objects.Keys - seen
  {
    var chain := ContainmentFrom(w, Some(d), seen).value;
    assert chain[0] == d;
    if !w.objects[d].kind.Room? {
      var rest := ContainmentFrom(w, w.objects[d].location, seen + {d}).value;
      assert chain == [d] + rest;
      assert rest != [];
      assert rest[|rest| - 1] == chain[|chain| - 1];
      assert forall id :: id in rest ==> id in chain;
      ChainIsGrounded(w, x, w.objects[d].location.value, seen + {d});
    }
  }

  lemma SafeIsGrounded(w: World, x: int, d: int) returns (n: nat)
    requires Safe(w, x, d)
    ensures Grounded(w, x, d, n)
  {
    ChainIsGrounded(w, x, d, {});
    n := |Containment(w, Some(d)).value| - 1;
  }

  lemma GroundedIsSafe(w: World, x: int, d: int, n: nat)
    requires Grounded(w, x, d, n)
    ensures Safe(w, x, d)
  {
    GroundedChainExists(w, x, d, n, {});
  }

  /** The traversal-based test and the path-free account agree on every world, however corrupt. */
  lemma SafeIffGrounded(w: World, x: int, d: int)
    ensures Safe(w, x, d) ==> exists n: nat :: Grounded(w, x, d, n)
    ensures (exists n: nat :: Grounded(w, x, d, n)) ==> Safe(w, x, d)
  {
    if Safe(w, x, d) {
      var n := SafeIsGrounded(w, x, d);
    }
    forall n: nat | Grounded(w, x, d, n)
      ensures Safe(w, x, d)
    {
      GroundedIsSafe(w, x, d, n);
    }
  }

  /** Chains depend only on kind, location and GOING; changing one ungrounded object breaks none. */
  ghost predicate SameExceptUngrounded(w: World, v: World, at: int) {
    w.objects.Keys == v.objects.Keys &&
    (forall id :: id in w.objects ==>
      w.objects[id].kind == v.objects[id].kind && w.objects[id].flags == v.objects[id].flags &&
      (id != at ==> w.objects[id].location == v.objects[id].location)) &&
    (at in w.objects && w.objects[at].location != v.objects[at].location ==>
      forall x, n: nat :: !Grounded(w, x, at, n))
  }

  lemma {:induction false} GroundedSurvives(w: World, v: World, at: int, x: int, d: int, n: nat)
    requires SameExceptUngrounded(w, v, at)
    requires Grounded(w, x, d, n)
    ensures Grounded(v, x, d, n)
    decreases n
  {
    if n > 0 {
      GroundedSurvives(w, v, at, x, w.objects[d].location.value, n - 1);
    }
  }

  lemma SafeSurvives(w: World, v: World, at: int, x: int, d: int)
    requires SameExceptUngrounded(w, v, at)
    requires Safe(w, x, d)
    ensures Safe(v, x, d)
  {
    var n := SafeIsGrounded(w, x, d);
    GroundedSurvives(w, v, at, x, d, n);
    GroundedIsSafe(v, x, d, n);
  }

  /** An occupant whose own location is unsafe lies on no safe chain at all. */
  lemma UnsafeOccupantIsUngrounded(w: World, at: int)
    requires at in w.objects && !w.objects[at].kind.Room?
    requires !(w.objects[at].location.Some? && Safe(w, at, w.objects[at].location.value))
    ensures forall x, n: nat :: !Grounded(w, x, at, n)
  {
    forall x, n: nat | Grounded(w, x, at, n)
      ensures false
    {
      var l := w.objects[at].location.value;
      ShallowChainAvoidsDeeper(w, x, x, l, n - 1, at, n);
      GroundedIsSafe(w, at, l, n - 1);
    }
  }
}
