/** What the repair pass establishes, and that a second repair finds nothing to do. */
module RepairProofs {
  import opened Prelude
  import opened Worlds
  import opened Lists
  import opened Reachability
  import opened Repair

  // ----- One ascending pass is enough

  ghost predicate SafeRef(w: World, id: nat, r: Option<int>) { r.Some? && Safe(w, id, r.value) }

  /** A surviving object with live references and, for occupants, safe home and location chains. */
  ghost predicate Settled(w: World, live: set<nat>, id: nat)
    requires id in w.objects
  {
    var o := w.objects[id];
    LiveRef(o.zone, live) && LiveRef(o.affiliation, live) && LiveRef(o.dropto, live) &&
    (o.kind.Room? ==> o.location.None? && o.home.None?) &&
    (o.kind.Exit? ==> o.home.None?) &&
    (OccupantKind(o.kind) ==> SafeRef(w, id, o.home) && SafeRef(w, id, o.location))
  }

  /** Only `id` differs, in nothing a chain or an exit endpoint reads beyond its own location. */
  ghost predicate StepOf(w: World, v: World, id: nat) {
    v == w.(objects := v.objects) && v.objects.Keys == w.objects.Keys &&
    (forall k :: k in w.objects && k != id ==> v.objects[k] == w.objects[k]) &&
    (id in w.objects ==>
      var o, p := w.objects[id], v.objects[id];
      o.kind == p.kind && o.flags == p.flags && o.destination == p.destination &&
      (o.kind.Exit? ==> o.location == p.location))
  }

  /** No chain that was safe for anyone stops being safe. */
  ghost predicate KeepsSafety(w: World, v: World) {
    forall x: int, d: int :: Safe(w, x, d) ==> Safe(v, x, d)
  }

  lemma StepKeepsSafety(w: World, v: World, id: nat)
    requires SameExceptUngrounded(w, v, id)
    ensures KeepsSafety(w, v)
  {
    forall x: int, d: int | Safe(w, x, d)
      ensures Safe(v, x, d)
    {
      SafeSurvives(w, v, id, x, d);
    }
  }

  lemma TidyStep(w: World, live: set<nat>, id: nat, v: World)
    requires id in w.objects && v == With(w, id, Tidy(w.objects[id], live))
    ensures StepOf(w, v, id) && SameExceptUngrounded(w, v, id)
  {
  }

  lemma HomeChangeStep(w: World, id: nat, v: World, d: int)
    requires id in w.objects && v == With(w, id, w.objects[id].(home := Some(d)))
    ensures StepOf(w, v, id) && SameExceptUngrounded(w, v, id)
  {
  }

  lemma HousedStep(w: World, c: Config, id: nat, v: World)
    requires id in w.objects && Housed(w, c, id) == Some(v)
    ensures StepOf(w, v, id) && SameExceptUngrounded(w, v, id)
    ensures v.objects[id] == w.objects[id].(home := v.objects[id].home)
    ensures SafeRef(v, id, v.objects[id].home)
  {
    if !SafeRef(w, id, w.objects[id].home) {
      var d := ReplacementHome(w, c, id).value;
      HomeChangeStep(w, id, v, d);
      SafeSurvives(w, v, id, id, d);
    }
  }

  lemma LocatedStep(w: World, c: Config, id: nat, v: World)
    requires id in w.objects && !w.objects[id].kind.Room? && !w.objects[id].kind.Exit?
    requires Located(w, c, id) == Some(v)
    ensures StepOf(w, v, id) && SameExceptUngrounded(w, v, id)
    ensures v.objects[id] == w.objects[id].(location := v.objects[id].location)
    ensures SafeRef(v, id, v.objects[id].location)
  {
    if !SafeRef(w, id, w.objects[id].location) {
      UnsafeOccupantIsUngrounded(w, id);
      SafeSurvives(w, v, id, id, ReplacementHome(w, c, id).value);
    }
  }

  /** An iteration settles its own object, keeps what was safe there, and breaks no chain anywhere. */
  lemma RepairStep(w: World, c: Config, live: set<nat>, id: nat, v: World)
    requires id in w.objects && RepairObject(w, c, live, id) == Some(v)
    ensures StepOf(w, v, id) && KeepsSafety(w, v)
    ensures id in live ==> Settled(v, live, id)
    ensures KeepsSafePlaces(w, v, id)
  {
    if id in live {
      var tidied := With(w, id, Tidy(w.objects[id], live));
      TidyStep(w, live, id, tidied);
      StepKeepsSafety(w, tidied, id);
      if OccupantKind(w.objects[id].kind) {
        var housed := Housed(tidied, c, id).value;
        HousedStep(tidied, c, id, housed);
        StepKeepsSafety(tidied, housed, id);
        LocatedStep(housed, c, id, v);
        StepKeepsSafety(housed, v, id);
      }
    }
  }

  /** An occupant's safe location and safe home are left as they are. */
  ghost predicate KeepsSafePlaces(w: World, v: World, k: nat) {
    k in w.objects && k in v.objects && OccupantKind(w.objects[k].kind) ==>
      (SafeRef(w, k, w.objects[k].location) ==> v.objects[k].location == w.objects[k].location) &&
      (SafeRef(w, k, w.objects[k].home) ==> v.objects[k].home == w.objects[k].home)
  }

  /** What the pass leaves alone. */
  ghost predicate SameShape(w: World, v: World) {
    v == w.(objects := v.objects) && v.objects.Keys == w.objects.Keys &&
    forall k :: k in w.objects ==>
      var o, p := w.objects[k], v.objects[k];
      o.kind == p.kind && o.flags == p.flags && o.destination == p.destination &&
      (o.kind.Exit? ==> o.location == p.location)
  }

  /** What a pass over `ids` did to one object. */
  ghost predicate PassedObject(w: World, v: World, live: set<nat>, ids: seq<nat>, k: nat) {
    k in w.objects && k in v.objects && KeepsSafePlaces(w, v, k) &&
    (k !in ids ==> v.objects[k] == w.objects[k]) &&
    (k in live && k in ids ==> Settled(v, live, k))
  }

  lemma SettledStays(u: World, v: World, live: set<nat>, id: nat)
    requires id in u.objects && id in v.objects && v.objects[id] == u.objects[id]
    requires Settled(u, live, id) && KeepsSafety(u, v)
    ensures Settled(v, live, id)
  {
  }

  lemma PassedOnward(w: World, u: World, v: World, live: set<nat>, id: nat, rest: seq<nat>, k: nat)
    requires StepOf(w, u, id) && KeepsSafety(w, u) && KeepsSafety(u, v) && KeepsSafePlaces(w, u, id)
    requires id in w.objects && id !in rest && (id in live ==> Settled(u, live, id))
    requires k in w.objects && PassedObject(u, v, live, rest, k)
    ensures PassedObject(w, v, live, [id] + rest, k)
  {
    if k == id && id in live {
      SettledStays(u, v, live, id);
    }
  }

  /**
   * However the chains were entangled, one pass settles every listed survivor; later iterations
   * never break an earlier chain, and an occupant that was already safe is not moved.
   */
  lemma {:induction false} PassSettles(w: World, c: Config, live: set<nat>, ids: seq<nat>)
    requires (forall id :: id in ids ==> id in w.objects) && Distinct(ids)
    requires Pass(w, c, live, ids).Ok?
    ensures var v := Pass(w, c, live, ids).value;
            SameShape(w, v) && KeepsSafety(w, v) &&
            forall k :: k in w.objects ==> PassedObject(w, v, live, ids, k)
    decreases |ids|
  {
    if ids != [] {
      var id := ids[0];
      var u := RepairObject(w, c, live, id).value;
      RepairStep(w, c, live, id, u);
      assert id !in ids[1..] && ids == [id] + ids[1..];
      PassSettles(u, c, live, ids[1..]);
      var v := Pass(w, c, live, ids).value;
      forall k | k in w.objects
        ensures PassedObject(w, v, live, ids, k)
      {
        PassedOnward(w, u, v, live, id, ids[1..], k);
      }
    }
  }

  ghost predicate ConfiguredRoom(w: World, c: Config, room: int) {
    room in {c.defaultHome, c.startingHome, c.startingRoom} && Container(w, room) && IsRoom(w, room) &&
    w.objects[room].location.None?
  }

  lemma ReplacementExists(w: World, c: Config, room: int, id: nat)
    requires ConfiguredRoom(w, c, room) && id in w.objects && !w.objects[id].kind.Room?
    ensures ReplacementHome(w, c, id).Some?
  {
    assert Grounded(w, id, room, 0);
    GroundedIsSafe(w, id, room, 0);
    assert room in Candidates(w, c, id);
  }

  /** A configured home that is an unlocated room rules out the only failure of the pass. */
  lemma {:induction false} PassCannotFail(w: World, c: Config, live: set<nat>, ids: seq<nat>, room: int)
    requires forall id :: id in ids ==> id in w.objects
    requires ConfiguredRoom(w, c, room)
    ensures Pass(w, c, live, ids).Ok?
    decreases |ids|
  {
    if ids != [] {
      StepCannotFail(w, c, live, ids[0], room);
      PassCannotFail(RepairObject(w, c, live, ids[0]).value, c, live, ids[1..], room);
    }
  }

  lemma ConfiguredRoomStays(w: World, v: World, c: Config, id: nat, room: int)
    requires ConfiguredRoom(w, c, room) && StepOf(w, v, id)
    requires id == room ==> v.objects[id].location.None?
    ensures ConfiguredRoom(v, c, room)
  {
  }

  lemma StepCannotFail(w: World, c: Config, live: set<nat>, id: nat, room: int)
    requires ConfiguredRoom(w, c, room) && id in w.objects
    ensures RepairObject(w, c, live, id).Some?
    ensures var v := RepairObject(w, c, live, id).value;
            v.objects.Keys == w.objects.Keys && ConfiguredRoom(v, c, room)
  {
    var tidied := With(w, id, Tidy(w.objects[id], live));
    TidyStep(w, live, id, tidied);
    ConfiguredRoomStays(w, tidied, c, id, room);
    if id in live && OccupantKind(w.objects[id].kind) {
      ReplacementExists(tidied, c, room, id);
      var housed := Housed(tidied, c, id).value;
      HousedStep(tidied, c, id, housed);
      ConfiguredRoomStays(tidied, housed, c, id, room);
      ReplacementExists(housed, c, room, id);
      LocatedStep(housed, c, id, Located(housed, c, id).value);
      ConfiguredRoomStays(housed, Located(housed, c, id).value, c, id, room);
    }
  }

  // ----- When the pass fails

  ghost predicate Usable(w: World, moved: nat, r: Option<int>) {
    r.Some? && Controls(w, moved, r.value) && Safe(w, moved, r.value)
  }

  /** The replacement policy spelled out: a controlled place of its own, then the configured homes. */
  ghost function Preferred(w: World, c: Config, moved: nat): Option<int>
    requires moved in w.objects
  {
    var o := w.objects[moved];
    if Usable(w, moved, o.location) then o.location
    else if Usable(w, moved, o.home) then o.home
    else if Safe(w, moved, c.defaultHome) then Some(c.defaultHome)
    else if Safe(w, moved, c.startingHome) then Some(c.startingHome)
    else if Safe(w, moved, c.startingRoom) then Some(c.startingRoom)
    else None
  }

  lemma {:induction false} FirstSafeAppend(w: World, moved: nat, a: seq<int>, b: seq<int>)
    ensures FirstSafe(w, moved, a + b) ==
            if FirstSafe(w, moved, a).Some? then FirstSafe(w, moved, a) else FirstSafe(w, moved, b)
  {
    if a == [] {
      assert a + b == b;
    } else {
      assert (a + b)[1..] == a[1..] + b;
      FirstSafeAppend(w, moved, a[1..], b);
    }
  }

  lemma FirstSafeOwn(w: World, moved: nat, r: Option<int>)
    ensures var own := Filter((d: int) => Controls(w, moved, d), Listed(r));
            FirstSafe(w, moved, own) == if Usable(w, moved, r) then r else None
  {
    if r.Some? {
      var d := r.value;
      assert Listed(r) == [d] && [d][1..] == [];
    }
  }

  lemma FirstSafeConfigured(w: World, c: Config, moved: nat)
    ensures FirstSafe(w, moved, [c.defaultHome, c.startingHome, c.startingRoom]) ==
            if Safe(w, moved, c.defaultHome) then Some(c.defaultHome)
            else if Safe(w, moved, c.startingHome) then Some(c.startingHome)
            else if Safe(w, moved, c.startingRoom) then Some(c.startingRoom)
            else None
  {
    FirstSafeAppend(w, moved, [c.defaultHome], [c.startingHome, c.startingRoom]);
    FirstSafeAppend(w, moved, [c.startingHome], [c.startingRoom]);
    assert [c.defaultHome] + [c.startingHome, c.startingRoom] == [c.defaultHome, c.startingHome, c.startingRoom];
    assert [c.startingHome] + [c.startingRoom] == [c.startingHome, c.startingRoom];
  }

  /** A replacement home is the first safe place of the policy, and missing only when none is safe. */
  lemma ReplacementHomeIsPreferred(w: World, c: Config, moved: nat)
    requires moved in w.objects
    ensures ReplacementHome(w, c, moved) == Preferred(w, c, moved)
  {
    var o, controlled := w.objects[moved], (d: int) => Controls(w, moved, d);
    FilterAppend(controlled, Listed(o.location), Listed(o.home));
    FirstSafeAppend(w, moved, Filter(controlled, Listed(o.location)), Filter(controlled, Listed(o.home)));
    FirstSafeAppend(w, moved, Filter(controlled, Listed(o.location) + Listed(o.home)),
                    [c.defaultHome, c.startingHome, c.startingRoom]);
    FirstSafeOwn(w, moved, o.location);
    FirstSafeOwn(w, moved, o.home);
    FirstSafeConfigured(w, c, moved);
  }

  ghost predicate NeedsPlace(w: World, id: nat)
    requires id in w.objects
  {
    !SafeRef(w, id, w.objects[id].home) || !SafeRef(w, id, w.objects[id].location)
  }

  /** A surviving occupant that needs a safe home or location when its policy offers none. */
  ghost predicate Stranded(w: World, c: Config, live: set<nat>, id: nat)
    requires id in w.objects
  {
    id in live && OccupantKind(w.objects[id].kind) &&
    var tidied := With(w, id, Tidy(w.objects[id], live));
    NeedsPlace(tidied, id) && Preferred(tidied, c, id).None?
  }

  lemma HousedThenLocated(w: World, c: Config, id: nat)
    requires id in w.objects
    ensures Housed(w, c, id).Some? && Located(Housed(w, c, id).value, c, id).Some? <==>
            !(NeedsPlace(w, id) && Preferred(w, c, id).None?)
  {
    ReplacementHomeIsPreferred(w, c, id);
    var o := w.objects[id];
    if !SafeRef(w, id, o.home) && Preferred(w, c, id).Some? {
      var housed := Housed(w, c, id).value;
      HousedStep(w, c, id, housed);
      StepKeepsSafety(w, housed, id);
      ReplacementHomeIsPreferred(housed, c, id);
    }
  }

  /** An iteration fails exactly on a stranded occupant. */
  lemma StepFailsIff(w: World, c: Config, live: set<nat>, id: nat)
    requires id in w.objects
    ensures RepairObject(w, c, live, id).None? <==> Stranded(w, c, live, id)
  {
    if id in live && OccupantKind(w.objects[id].kind) {
      HousedThenLocated(With(w, id, Tidy(w.objects[id], live)), c, id);
    }
  }

  /** The pass reaches its k-th object and finds it stranded. */
  ghost predicate StrandedAt(w: World, c: Config, live: set<nat>, ids: seq<nat>, k: nat)
    requires (forall id :: id in ids ==> id in w.objects) && k < |ids|
  {
    Pass(w, c, live, ids[..k]).Ok? &&
    var reached := Pass(w, c, live, ids[..k]).value;
    ids[k] in reached.objects && Stranded(reached, c, live, ids[k])
  }

  lemma StrandedLater(w: World, c: Config, live: set<nat>, ids: seq<nat>, v: World, k: nat)
    requires (forall id :: id in ids ==> id in w.objects) && 0 < k < |ids|
    requires RepairObject(w, c, live, ids[0]) == Some(v)
    ensures StrandedAt(w, c, live, ids, k) <==> StrandedAt(v, c, live, ids[1..], k - 1)
  {
    assert ids[..k][1..] == ids[1..][..k - 1] && ids[..k][0] == ids[0];
  }

  lemma StrandedFirst(w: World, c: Config, live: set<nat>, ids: seq<nat>)
    requires (forall id :: id in ids ==> id in w.objects) && ids != []
    ensures StrandedAt(w, c, live, ids, 0) <==> RepairObject(w, c, live, ids[0]).None?
  {
    assert ids[..0] == [];
    StepFailsIff(w, c, live, ids[0]);
  }

  lemma {:induction false} StrandedFails(w: World, c: Config, live: set<nat>, ids: seq<nat>, k: nat)
    requires (forall id :: id in ids ==> id in w.objects) && k < |ids| && StrandedAt(w, c, live, ids, k)
    ensures Pass(w, c, live, ids) == Err(NoSafeHome(ids[k]))
    decreases k
  {
    if k == 0 {
      StrandedFirst(w, c, live, ids);
    } else {
      assert ids[..k][0] == ids[0];
      var next := RepairObject(w, c, live, ids[0]).value;
      StrandedLater(w, c, live, ids, next, k);
      StrandedFails(next, c, live, ids[1..], k - 1);
    }
  }

  lemma {:induction false} FailureIsStranded(w: World, c: Config, live: set<nat>, ids: seq<nat>) returns (k: nat)
    requires (forall id :: id in ids ==> id in w.objects) && Pass(w, c, live, ids).Err?
    ensures k < |ids| && StrandedAt(w, c, live, ids, k)
    decreases |ids|
  {
    StrandedFirst(w, c, live, ids);
    var next := RepairObject(w, c, live, ids[0]);
    if next.None? {
      k := 0;
    } else {
      var later := FailureIsStranded(next.value, c, live, ids[1..]);
      k := later + 1;
      StrandedLater(w, c, live, ids, next.value, k);
    }
  }

  /** The pass succeeds exactly when no object it reaches is stranded, and otherwise names the one that is. */
  lemma PassFailsIff(w: World, c: Config, live: set<nat>, ids: seq<nat>)
    requires forall id :: id in ids ==> id in w.objects
    ensures Pass(w, c, live, ids).Ok? <==> forall k :: 0 <= k < |ids| ==> !StrandedAt(w, c, live, ids, k)
    ensures forall k :: 0 <= k < |ids| && StrandedAt(w, c, live, ids, k) ==>
              Pass(w, c, live, ids) == Err(NoSafeHome(ids[k]))
  {
    forall k | 0 <= k < |ids| && StrandedAt(w, c, live, ids, k)
      ensures Pass(w, c, live, ids) == Err(NoSafeHome(ids[k]))
    {
      StrandedFails(w, c, live, ids, k);
    }
    if Pass(w, c, live, ids).Err? {
      var k := FailureIsStranded(w, c, live, ids);
    }
  }

  // ----- The repaired world

  ghost predicate GoodExit(w: World, id: nat)
    requires id in w.objects
  {
    var o := w.objects[id];
    o.location.Some? && Container(w, o.location.value) && o.destination.Some? && Container(w, o.destination.value)
  }

  ghost predicate LiveDirectory(w: World, live: set<nat>) {
    (forall id: int :: id in w.channelAliases ==> id in live) &&
    (forall id: int :: id in w.lastPages ==> id in live) &&
    (forall id: int, to: int :: id in w.lastPages && to in w.lastPages[id] ==> to in live) &&
    (forall name, user: int :: name in w.channels && user in w.channels[name].users ==> user in live) &&
    (forall name :: name in w.channels ==> LiveRef(w.channels[name].owner, live))
  }

  /** No survivor is GOING or dangles, and every containment chain is rooted. */
  ghost predicate Clean(w: World) {
    (forall id :: id in w.objects && !w.objects[id].kind.Garbage? ==>
      Going !in w.objects[id].flags && Settled(w, Live(w), id) &&
      (w.objects[id].kind.Exit? ==> GoodExit(w, id))) &&
    LiveDirectory(w, Live(w))
  }

  lemma {:induction false} GroundedIgnoresOthers(w: World, v: World, x: int, d: int, n: nat)
    requires forall id :: Container(w, id) ==> id in v.objects && v.objects[id] == w.objects[id]
    requires Grounded(w, x, d, n)
    ensures Grounded(v, x, d, n)
    decreases n
  {
    if n > 0 {
      GroundedIgnoresOthers(w, v, x, w.objects[d].location.value, n - 1);
    }
  }

  lemma SettledIgnoresOthers(w: World, v: World, live: set<nat>, id: nat)
    requires forall k :: Container(w, k) ==> k in v.objects && v.objects[k] == w.objects[k]
    requires id in w.objects && id in v.objects && v.objects[id] == w.objects[id] && Settled(w, live, id)
    ensures Settled(v, live, id)
  {
    var o := w.objects[id];
    if OccupantKind(o.kind) {
      var m := SafeIsGrounded(w, id, o.home.value);
      GroundedIgnoresOthers(w, v, id, o.home.value, m);
      GroundedIsSafe(v, id, o.home.value, m);
      var n := SafeIsGrounded(w, id, o.location.value);
      GroundedIgnoresOthers(w, v, id, o.location.value, n);
      GroundedIsSafe(v, id, o.location.value, n);
    }
  }

  lemma MarkedExits(before: World, raw: Links, c: Config, id: nat)
    requires var w := Marked(before, raw, c); id in w.objects && w.objects[id].kind.Exit? && id in Live(w)
    ensures GoodExit(Marked(before, raw, c), id)
  {
    var claimed := Claimed(Cleared(before, c), raw);
    var w := Marked(before, raw, c);
    assert !BadExit(claimed, id);
    assert forall d :: Container(claimed, d) ==> Container(w, d);
  }

  lemma RetiredDirectoryIsLive(w: World, live: set<nat>)
    ensures LiveDirectory(Retired(w, live), live)
  {
  }

  /** What became of one marked object in the finished world. */
  ghost predicate FinishedObject(marked: World, after: World, id: nat)
    requires id in marked.objects && id in after.objects
  {
    var m, o := marked.objects[id], after.objects[id];
    if id in Live(marked) then
      Settled(after, Live(marked), id) && o.kind == m.kind && o.flags == m.flags &&
      o.destination == m.destination && (m.kind.Exit? ==> o.location == m.location)
    else o.kind.Garbage?
  }

  ghost predicate Finished(marked: World, after: World) {
    after.objects.Keys == marked.objects.Keys &&
    (forall id :: id in marked.objects ==> FinishedObject(marked, after, id)) &&
    LiveDirectory(after, Live(marked))
  }

  lemma PurgedKeepsContainers(w: World, purges: set<nat>, live: set<nat>, after: World)
    requires after == Retired(Purged(w, purges), live)
    requires forall id :: id in purges ==> id in w.objects && Going in w.objects[id].flags
    ensures after.objects.Keys == w.objects.Keys
    ensures forall k :: Container(w, k) ==> after.objects[k] == w.objects[k]
    ensures forall k :: k in w.objects && k !in purges ==> after.objects[k] == w.objects[k]
    ensures forall k :: k in purges ==> after.objects[k].kind.Garbage?
  {
  }

  lemma FinishedByPass(marked: World, c: Config, ids: seq<nat>, after: World)
    requires (forall id :: id in ids <==> id in marked.objects) && Distinct(ids)
    requires Pass(marked, c, Live(marked), ids).Ok?
    requires after == Retired(Purged(Pass(marked, c, Live(marked), ids).value, Purges(marked)), Live(marked))
    ensures Finished(marked, after)
  {
    var w := Pass(marked, c, Live(marked), ids).value;
    PassSettles(marked, c, Live(marked), ids);
    PurgedKeepsContainers(w, Purges(marked), Live(marked), after);
    forall id | id in marked.objects
      ensures FinishedObject(marked, after, id)
    {
      if id in Live(marked) {
        assert PassedObject(marked, w, Live(marked), ids, id);
        SettledIgnoresOthers(w, after, Live(marked), id);
      }
    }
    RetiredDirectoryIsLive(Purged(w, Purges(marked)), Live(marked));
  }

  lemma FinishedIsClean(marked: World, after: World)
    requires Finished(marked, after)
    requires forall id :: id in Live(marked) && marked.objects[id].kind.Exit? ==> GoodExit(marked, id)
    ensures Clean(after) && Live(after) == Live(marked)
  {
    assert forall id :: id in marked.objects ==> FinishedObject(marked, after, id);
    assert Live(after) == Live(marked);
    assert forall d :: Container(marked, d) ==> Container(after, d);
  }

  lemma RepairedIsFinished(before: World, raw: Links, c: Config)
    requires Repaired(before, raw, c).Ok?
    ensures Finished(Marked(before, raw, c), Repaired(before, raw, c).value)
  {
    FinishedByPass(Marked(before, raw, c), c, Ascending(before.objects.Keys), Repaired(before, raw, c).value);
  }

  /** Repair leaves no dangling reference, doomed survivor or unrooted occupant, for any input. */
  lemma RepairedIsClean(before: World, raw: Links, c: Config)
    requires Repaired(before, raw, c).Ok?
    ensures var after := Repaired(before, raw, c).value;
            Clean(after) && Live(after) == Live(Marked(before, raw, c))
  {
    var marked := Marked(before, raw, c);
    forall id | id in Live(marked) && marked.objects[id].kind.Exit?
      ensures GoodExit(marked, id)
    {
      MarkedExits(before, raw, c, id);
    }
    RepairedIsFinished(before, raw, c);
    FinishedIsClean(marked, Repaired(before, raw, c).value);
  }
}
