/** When the planner succeeds, and exactly when repairing twice equals repairing once. */
module RepairTheorems {
  import opened Prelude
  import opened Worlds
  import opened Lists
  import opened Reachability
  import opened Repair
  import opened RepairProofs

  // ----- Final validation

  lemma {:induction false} GroundedAvoidsNonContainers(w: World, y: int, d: int, n: nat, x: int)
    requires Grounded(w, y, d, n) && !Container(w, x)
    ensures Grounded(w, x, d, n)
    decreases n
  {
    if n > 0 {
      GroundedAvoidsNonContainers(w, y, w.objects[d].location.value, n - 1, x);
    }
  }

  lemma SettledContainerIsSafe(w: World, d: nat, x: int)
    requires Container(w, d) && !Container(w, x)
    requires if w.objects[d].kind.Room? then w.objects[d].location.None? else SafeRef(w, d, w.objects[d].location)
    ensures Safe(w, x, d)
  {
    if w.objects[d].kind.Room? {
      GroundedIsSafe(w, x, d, 0);
    } else {
      var l := w.objects[d].location.value;
      var n := SafeIsGrounded(w, d, l);
      GroundedAvoidsNonContainers(w, d, l, n, x);
      GroundedIsSafe(w, x, d, n + 1);
    }
  }

  lemma CleanObjectValid(w: World, id: nat)
    requires Clean(w) && id in w.objects && !w.objects[id].kind.Garbage?
    ensures ObjectValid(w, id) <==> RefersToObject(w, w.objects[id].destination)
  {
    var o := w.objects[id];
    if o.kind.Exit? {
      SettledContainerIsSafe(w, o.location.value, id);
    } else if OccupantKind(o.kind) {
      var m := SafeIsGrounded(w, id, o.home.value);
      var n := SafeIsGrounded(w, id, o.location.value);
    }
  }

  /** Stale destinations on objects that are not exits, which no stage repairs. */
  ghost predicate DestinationsLive(w: World, live: set<nat>) {
    forall id :: id in w.objects && id in live && !w.objects[id].kind.Exit? ==> LiveRef(w.objects[id].destination, live)
  }

  /** A clean world validates exactly when the starting places are rooms and no destination is stale. */
  lemma CleanWorldValidIff(w: World, c: Config)
    requires Clean(w)
    ensures ObjectsValid(w, c) <==>
            IsRoom(w, c.startingRoom) && IsRoom(w, c.startingHome) && DestinationsLive(w, Live(w))
  {
    forall id | id in w.objects && !w.objects[id].kind.Garbage?
      ensures ObjectValid(w, id) <==> (w.objects[id].kind.Exit? || LiveRef(w.objects[id].destination, Live(w)))
    {
      CleanObjectValid(w, id);
    }
  }

  // ----- When planning succeeds

  /** The checks that read state outside this model accept the repaired world. */
  ghost predicate HostAccepts(host: Host, after: World, purges: set<nat>) {
    (purges == {} || host.rolls(after, purges)) && host.accounts(after) && host.rest(after)
  }

  lemma MarkedKeepsObjects(before: World, raw: Links, c: Config, id: nat)
    requires id in before.objects
    ensures var m := Marked(before, raw, c);
            id in m.objects && m.objects[id].kind == before.objects[id].kind &&
            m.objects[id].destination == before.objects[id].destination &&
            (before.objects[id].kind.Room? ==> m.objects[id].location == before.objects[id].location) &&
            (id in Protected(c) && !before.objects[id].kind.Exit? ==> Going !in m.objects[id].flags)
  {
  }

  lemma FinishedKeepsDestinations(marked: World, after: World)
    requires Finished(marked, after)
    ensures DestinationsLive(after, Live(marked)) <==> DestinationsLive(marked, Live(marked))
  {
    assert forall id :: id in marked.objects ==> FinishedObject(marked, after, id);
  }

  lemma RoomsSurvive(before: World, raw: Links, c: Config, id: int)
    requires Repaired(before, raw, c).Ok? && (id < 0 || id in Protected(c))
    ensures IsRoom(Repaired(before, raw, c).value, id) <==> IsRoom(before, id)
  {
    if id in before.objects {
      MarkedKeepsObjects(before, raw, c, id);
      RepairedIsFinished(before, raw, c);
      assert FinishedObject(Marked(before, raw, c), Repaired(before, raw, c).value, id);
    }
  }

  lemma RepairedValidIff(before: World, raw: Links, c: Config)
    requires Repaired(before, raw, c).Ok?
    ensures var marked := Marked(before, raw, c);
            ObjectsValid(Repaired(before, raw, c).value, c) <==>
            IsRoom(before, c.startingRoom) && IsRoom(before, c.startingHome) && DestinationsLive(marked, Live(marked))
  {
    RepairedIsClean(before, raw, c);
    CleanWorldValidIff(Repaired(before, raw, c).value, c);
    RoomsSurvive(before, raw, c, c.startingRoom);
    RoomsSurvive(before, raw, c, c.startingHome);
    RepairedIsFinished(before, raw, c);
    FinishedKeepsDestinations(Marked(before, raw, c), Repaired(before, raw, c).value);
  }

  lemma ConfiguredRoomIsMarked(before: World, raw: Links, c: Config, room: int)
    requires room in {c.defaultHome, c.startingHome, c.startingRoom} && IsRoom(before, room) &&
             before.objects[room].location.None?
    ensures ConfiguredRoom(Marked(before, raw, c), c, room)
  {
    MarkedKeepsObjects(before, raw, c, room);
  }

  lemma MarkedPassSucceeds(before: World, raw: Links, c: Config, room: int)
    requires ConfiguredRoom(Marked(before, raw, c), c, room)
    ensures Repaired(before, raw, c).Ok?
  {
    PassCannotFail(Marked(before, raw, c), c, Live(Marked(before, raw, c)), Ascending(before.objects.Keys), room);
  }

  lemma ConcludedOkIff(before: World, raw: Links, c: Config, host: Host, marked: World, after: World)
    requires after.objects.Keys == before.objects.Keys
    ensures Concluded(before, raw, c, host, marked, after).Ok? <==>
            ObjectsValid(after, c) && HostAccepts(host, after, Purges(marked))
  {
  }

  lemma PlannedOkIff(before: World, raw: Links, c: Config, host: Host)
    requires Repaired(before, raw, c).Ok?
    ensures var after := Repaired(before, raw, c).value;
            Planned(before, raw, c, host).Ok? <==>
            (Foundation(before, c, host).Ok? && ObjectsValid(after, c) &&
             HostAccepts(host, after, Purges(Marked(before, raw, c))))
  {
    ConcludedOkIff(before, raw, c, host, Marked(before, raw, c), Repaired(before, raw, c).value);
  }

  /**
   * With one configured home an unlocated room, planning succeeds exactly when its foundations
   * hold, the starting places are rooms, no survivor other than an exit has a stale destination,
   * and the checks outside this model pass.
   */
  lemma PlanSucceedsIff(before: World, raw: Links, c: Config, host: Host, room: int)
    requires room in {c.defaultHome, c.startingHome, c.startingRoom} && IsRoom(before, room) &&
             before.objects[room].location.None?
    ensures Repaired(before, raw, c).Ok?
    ensures var marked := Marked(before, raw, c);
            Planned(before, raw, c, host).Ok? <==>
            (Foundation(before, c, host).Ok? && IsRoom(before, c.startingRoom) && IsRoom(before, c.startingHome) &&
             DestinationsLive(marked, Live(marked)) &&
             HostAccepts(host, Repaired(before, raw, c).value, Purges(marked)))
  {
    ConfiguredRoomIsMarked(before, raw, c, room);
    MarkedPassSucceeds(before, raw, c, room);
    RepairedValidIff(before, raw, c);
    PlannedOkIff(before, raw, c, host);
  }

  /** No occupant the pass reaches is left without a safe place its policy offers. */
  ghost predicate NobodyStranded(before: World, raw: Links, c: Config) {
    var marked, ids := Marked(before, raw, c), Ascending(before.objects.Keys);
    forall k :: 0 <= k < |ids| ==> !StrandedAt(marked, c, Live(marked), ids, k)
  }

  lemma RepairedOkIff(before: World, raw: Links, c: Config)
    ensures Repaired(before, raw, c).Ok? <==> NobodyStranded(before, raw, c)
  {
    PassFailsIff(Marked(before, raw, c), c, Live(Marked(before, raw, c)), Ascending(before.objects.Keys));
  }

  /** On any world and configuration, planning succeeds exactly under these conditions. */
  lemma PlanSucceedsExactly(before: World, raw: Links, c: Config, host: Host)
    ensures var marked := Marked(before, raw, c);
            Planned(before, raw, c, host).Ok? <==>
            (Foundation(before, c, host).Ok? && NobodyStranded(before, raw, c) &&
             IsRoom(before, c.startingRoom) && IsRoom(before, c.startingHome) &&
             DestinationsLive(marked, Live(marked)) &&
             Repaired(before, raw, c).Ok? && HostAccepts(host, Repaired(before, raw, c).value, Purges(marked)))
  {
    RepairedOkIff(before, raw, c);
    if Repaired(before, raw, c).Ok? {
      RepairedValidIff(before, raw, c);
      PlannedOkIff(before, raw, c, host);
    }
  }

  /** Every writer of destinations guards them to exits, so stored worlds satisfy this. */
  ghost predicate OnlyExitsLead(w: World) {
    forall id :: id in w.objects && !w.objects[id].kind.Exit? ==> w.objects[id].destination.None?
  }

  lemma OnlyExitsLeadAfterMarking(before: World, raw: Links, c: Config)
    requires OnlyExitsLead(before)
    ensures DestinationsLive(Marked(before, raw, c), Live(Marked(before, raw, c)))
  {
    var marked := Marked(before, raw, c);
    forall id | id in marked.objects && !marked.objects[id].kind.Exit?
      ensures marked.objects[id].destination.None?
    {
      MarkedKeepsObjects(before, raw, c, id);
    }
  }

  /** So a stored world with an unlocated configured home is planned whenever the checks around it hold. */
  lemma StoredWorldIsPlannedIff(before: World, raw: Links, c: Config, host: Host, room: int)
    requires OnlyExitsLead(before)
    requires room in {c.defaultHome, c.startingHome, c.startingRoom} && IsRoom(before, room) &&
             before.objects[room].location.None?
    ensures Repaired(before, raw, c).Ok?
    ensures Planned(before, raw, c, host).Ok? <==>
            (Foundation(before, c, host).Ok? && IsRoom(before, c.startingRoom) && IsRoom(before, c.startingHome) &&
             HostAccepts(host, Repaired(before, raw, c).value, Purges(Marked(before, raw, c))))
  {
    PlanSucceedsIff(before, raw, c, host, room);
    OnlyExitsLeadAfterMarking(before, raw, c);
  }

  // ----- Repairing twice

  lemma CleanMembershipIsClaimed(w: World, links: Links, id: nat)
    requires Clean(w) && links == Rebuilt(w, links) && id in w.objects && Placed(w.objects[id])
    ensures ClaimedObject(w, links, id) == w.objects[id]
  {
    var o := w.objects[id];
    if OccupantKind(o.kind) {
      var n := SafeIsGrounded(w, id, o.location.value);
    }
    var owner := o.location.value;
    RebuiltListsRoundTrip(w, links, owner, o.kind.Exit?);
    OrderedMembersListMembersOnce(w, links, owner, o.kind.Exit?);
    assert id in Members(w, owner, o.kind.Exit?);
    assert owner in Owners(w, links, id);
  }

  ghost predicate ProtectedPresent(w: World, c: Config) {
    forall id :: id in Protected(c) ==> id in w.objects && !w.objects[id].kind.Garbage?
  }

  lemma NothingToClear(w: World, c: Config)
    requires forall id :: id in w.objects && id in Protected(c) ==> Going !in w.objects[id].flags
    ensures Cleared(w, c) == w
  {
    forall id | id in w.objects && id in Protected(c)
      ensures w.objects[id].flags - {Going} == w.objects[id].flags
    {
    }
    assert Cleared(w, c).objects == w.objects;
  }

  lemma CleanHasNothingToDoom(w: World)
    requires Clean(w)
    ensures Doomed(w) == w && Purges(w) == {}
  {
    assert Doomed(w).objects == w.objects;
  }

  lemma CleanClaimsAgree(w: World, links: Links)
    requires Clean(w) && links == Rebuilt(w, links)
    ensures Claimed(w, links) == w
  {
    forall id | id in w.objects
      ensures ClaimedObject(w, links, id) == w.objects[id]
    {
      if Placed(w.objects[id]) {
        CleanMembershipIsClaimed(w, links, id);
      }
    }
    assert Claimed(w, links).objects == w.objects;
  }

  lemma CleanIsMarkedUnchanged(w: World, links: Links, c: Config)
    requires Clean(w) && links == Rebuilt(w, links) && ProtectedPresent(w, c)
    ensures Marked(w, links, c) == w && Purges(w) == {}
  {
    NothingToClear(w, c);
    CleanClaimsAgree(w, links);
    CleanHasNothingToDoom(w);
  }

  lemma SettledIsRepaired(w: World, c: Config, live: set<nat>, id: nat)
    requires id in w.objects && (id in live ==> Settled(w, live, id))
    ensures RepairObject(w, c, live, id) == Some(w)
  {
    if id in live {
      assert Tidy(w.objects[id], live) == w.objects[id];
      assert w.objects[id := w.objects[id]] == w.objects;
    }
  }

  lemma {:induction false} SettledPassIsIdentity(w: World, c: Config, live: set<nat>, ids: seq<nat>)
    requires forall id :: id in ids ==> id in w.objects && (id in live ==> Settled(w, live, id))
    ensures Pass(w, c, live, ids) == Ok(w)
    decreases |ids|
  {
    if ids != [] {
      SettledIsRepaired(w, c, live, ids[0]);
      SettledPassIsIdentity(w, c, live, ids[1..]);
    }
  }

  lemma LiveListIsKept(ids: seq<int>, live: set<nat>)
    requires forall id: int :: id in ids ==> id in live
    ensures LiveOnly(ids, live) == ids
  {
    var keep := (to: int) => to in live;
    forall id: int | id in ids ensures keep(id) { assert id in live; }
    FilterAll(keep, ids);
  }

  lemma LivePagesAreKept(w: World, live: set<nat>)
    requires LiveDirectory(w, live)
    ensures Retired(w, live).channelAliases == w.channelAliases && Retired(w, live).lastPages == w.lastPages
  {
    forall id: int | id in w.lastPages
      ensures id in live && LiveOnly(w.lastPages[id], live) == w.lastPages[id]
    {
      LiveListIsKept(w.lastPages[id], live);
    }
    assert forall id: int :: id in w.channelAliases ==> id in live;
  }

  lemma LiveChannelsAreKept(w: World, live: set<nat>)
    requires LiveDirectory(w, live)
    ensures Retired(w, live).channels == w.channels
  {
    forall name | name in w.channels
      ensures Channel(LiveOnly(w.channels[name].users, live), Kept(w.channels[name].owner, live)) == w.channels[name]
    {
      LiveListIsKept(w.channels[name].users, live);
    }
  }

  lemma PurgingNothing(w: World)
    ensures Purged(w, {}) == w
  {
    assert Purged(w, {}).objects == w.objects && Purged(w, {}).accounts == w.accounts;
  }

  lemma CleanDirectoryIsKept(w: World, live: set<nat>)
    requires LiveDirectory(w, live)
    ensures Retired(Purged(w, {}), live) == w
  {
    PurgingNothing(w);
    LivePagesAreKept(w, live);
    LiveChannelsAreKept(w, live);
  }

  lemma CleanIsRepairedUnchanged(w: World, links: Links, c: Config)
    requires Clean(w) && links == Rebuilt(w, links) && ProtectedPresent(w, c)
    ensures Repaired(w, links, c) == Ok(w)
  {
    CleanIsMarkedUnchanged(w, links, c);
    SettledPassIsIdentity(w, c, Live(w), Ascending(w.objects.Keys));
    CleanDirectoryIsKept(w, Live(w));
  }

  lemma {:induction false} NoChangesReported(w: World, ids: seq<nat>)
    requires forall id :: id in ids ==> id in w.objects
    ensures FieldRepairs(w, w, ids) == [] && Relocations(w, w, ids) == []
  {
    if ids != [] {
      NoChangesReported(w, ids[..|ids| - 1]);
    }
  }

  /** A report that changes nothing. */
  function Unchanged(links: Links, unreachable: set<nat>): Report {
    Report([], [], links, [], {}, {}, unreachable)
  }

  lemma NoListChanges(links: Links)
    ensures ListChanges(links, links) == []
  {
    FilterNone((id: nat) => !(id in links && id in links && links[id] == links[id]), Ascending(links.Keys));
  }

  lemma UnchangedReport(w: World, links: Links, c: Config)
    requires links == Rebuilt(w, links) && Purges(w) == {}
    ensures ReportOf(w, links, c, w, w) == Unchanged(links, UnreachableRooms(w, c))
  {
    NoChangesReported(w, Ascending(w.objects.Keys));
    NoListChanges(links);
  }

  lemma CleanReportIsEmpty(w: World, links: Links, c: Config)
    requires Clean(w) && links == Rebuilt(w, links) && ProtectedPresent(w, c)
    ensures ReportOf(w, links, c, Marked(w, links, c), w) == Unchanged(links, UnreachableRooms(w, c))
  {
    CleanIsMarkedUnchanged(w, links, c);
    UnchangedReport(w, links, c);
  }

  /** Whether some protected object is an exit whose claimed endpoints are unusable. */
  ghost predicate DoomsProtected(before: World, raw: Links, c: Config) {
    exists id :: id in Protected(c) && BadExit(Claimed(Cleared(before, c), raw), id)
  }

  lemma DoomedIff(claimed: World, id: nat)
    requires id in claimed.objects && !claimed.objects[id].kind.Garbage? && Going !in claimed.objects[id].flags
    ensures id in Live(Doomed(claimed)) <==> !BadExit(claimed, id)
  {
  }

  lemma ClaimedProtected(before: World, raw: Links, c: Config, id: nat)
    requires id in Protected(c) && id in before.objects
    ensures var claimed := Claimed(Cleared(before, c), raw);
            id in claimed.objects && claimed.objects[id].kind == before.objects[id].kind &&
            Going !in claimed.objects[id].flags
  {
  }

  lemma ProtectedSurvivesIff(before: World, raw: Links, c: Config, id: nat)
    requires Repaired(before, raw, c).Ok?
    requires id in Protected(c) && id in before.objects && !before.objects[id].kind.Garbage?
    ensures !Repaired(before, raw, c).value.objects[id].kind.Garbage? <==>
            !BadExit(Claimed(Cleared(before, c), raw), id)
  {
    ClaimedProtected(before, raw, c, id);
    DoomedIff(Claimed(Cleared(before, c), raw), id);
    RepairedIsFinished(before, raw, c);
    assert FinishedObject(Marked(before, raw, c), Repaired(before, raw, c).value, id);
  }

  lemma FoundationHoldsProtected(before: World, c: Config, host: Host)
    requires Foundation(before, c, host).Ok?
    ensures ProtectedPresent(before, c)
  {
  }

  lemma ProtectedSurviveIff(before: World, raw: Links, c: Config)
    requires ProtectedPresent(before, c) && Repaired(before, raw, c).Ok?
    ensures ProtectedPresent(Repaired(before, raw, c).value, c) <==> !DoomsProtected(before, raw, c)
  {
    forall id | id in Protected(c)
      ensures ProtectedAgree(Repaired(before, raw, c).value, Claimed(Cleared(before, c), raw), id)
    {
      ProtectedSurvivesIff(before, raw, c, id);
    }
    AgreedProtectedSurvive(Repaired(before, raw, c).value, Claimed(Cleared(before, c), raw), c);
  }

  ghost predicate ProtectedAgree(after: World, claimed: World, id: nat) {
    id in after.objects && (!after.objects[id].kind.Garbage? <==> !BadExit(claimed, id))
  }

  lemma AgreedProtectedSurvive(after: World, claimed: World, c: Config)
    requires forall id :: id in Protected(c) ==> ProtectedAgree(after, claimed, id)
    ensures ProtectedPresent(after, c) <==> !exists id :: id in Protected(c) && BadExit(claimed, id)
  {
  }

  lemma CleanConcluded(w: World, links: Links, c: Config, host: Host)
    requires Clean(w) && links == Rebuilt(w, links) && ProtectedPresent(w, c)
    requires ObjectsValid(w, c) && host.accounts(w) && host.rest(w)
    ensures Concluded(w, links, c, host, Marked(w, links, c), w) == Ok((w, Unchanged(links, UnreachableRooms(w, c))))
  {
    CleanIsMarkedUnchanged(w, links, c);
    CleanReportIsEmpty(w, links, c);
  }

  /** Planning again on a clean, consistently linked world. */
  lemma CleanPlan(w: World, links: Links, c: Config, host: Host)
    requires Clean(w) && links == Rebuilt(w, links) && 1 in w.objects && w.objects[1].kind.Player?
    requires ObjectsValid(w, c) && host.accounts(w) && host.rest(w)
    ensures Planned(w, links, c, host) ==
            if ProtectedPresent(w, c) then Ok((w, Unchanged(links, UnreachableRooms(w, c))))
            else Err(ProtectedUnavailable)
  {
    if ProtectedPresent(w, c) {
      CleanIsRepairedUnchanged(w, links, c);
      CleanConcluded(w, links, c, host);
    }
  }

  /**
   * Repairing the repaired world again, from its rebuilt lists, succeeds and changes nothing
   * exactly when no protected exit was doomed; otherwise it reports a protected object missing.
   */
  lemma RepairIsIdempotentIff(before: World, raw: Links, c: Config, host: Host)
    requires Planned(before, raw, c, host).Ok?
    ensures var (after, report) := Planned(before, raw, c, host).value;
            Planned(after, report.links, c, host) ==
            if DoomsProtected(before, raw, c) then Err(ProtectedUnavailable)
            else Ok((after, Unchanged(report.links, report.unreachable)))
  {
    var after, links := Repaired(before, raw, c).value, Rebuilt(Repaired(before, raw, c).value, raw);
    RepairedIsClean(before, raw, c);
    RebuildingTwiceIsRebuildingOnce(after, raw);
    GodSurvives(before, raw, c, host);
    CleanPlan(after, links, c, host);
    FoundationHoldsProtected(before, c, host);
    ProtectedSurviveIff(before, raw, c);
  }

  lemma GodSurvives(before: World, raw: Links, c: Config, host: Host)
    requires Foundation(before, c, host).Ok? && Repaired(before, raw, c).Ok?
    ensures var after := Repaired(before, raw, c).value; 1 in after.objects && after.objects[1].kind.Player?
  {
    RepairedIsFinished(before, raw, c);
    MarkedKeepsObjects(before, raw, c, 1);
    assert FinishedObject(Marked(before, raw, c), Repaired(before, raw, c).value, 1);
  }

  /** In particular, when no protected object is an exit. */
  lemma RepairIsIdempotent(before: World, raw: Links, c: Config, host: Host)
    requires Planned(before, raw, c, host).Ok?
    requires forall id :: id in Protected(c) && id in before.objects ==> !before.objects[id].kind.Exit?
    ensures var (after, report) := Planned(before, raw, c, host).value;
            Planned(after, report.links, c, host) == Ok((after, Unchanged(report.links, report.unreachable)))
  {
    RepairIsIdempotentIff(before, raw, c, host);
  }

  // ----- A world whose second repair fails

  function Plain(kind: Kind, place: Option<int>): Object {
    Object(0, "", kind, place, None, place, None, None, None, {})
  }

  const ORPHAN_EXIT := World(map[0 := Plain(Exit, None), 1 := Plain(Player, Some(2)), 2 := Plain(Room, None)],
                             {}, map[], map[], map[])

  const ROOM_TWO := Config(2, 2, 2)

  const ACCEPTING := Host((w: World) => true, (w: World, purges: set<nat>) => true, (w: World) => true)

  lemma AcceptedWorldIsPlanned(before: World, raw: Links, c: Config)
    requires Foundation(before, c, ACCEPTING).Ok? && IsRoom(before, c.startingRoom) && IsRoom(before, c.startingHome)
    requires before.objects[c.startingRoom].location.None? && OnlyExitsLead(before)
    ensures Planned(before, raw, c, ACCEPTING).Ok?
  {
    StoredWorldIsPlannedIff(before, raw, c, ACCEPTING, c.startingRoom);
  }

  lemma OrphanExitIsDoomed()
    ensures DoomsProtected(ORPHAN_EXIT, map[], ROOM_TWO)
  {
    var cleared := Cleared(ORPHAN_EXIT, ROOM_TWO);
    assert 0 in Protected(ROOM_TWO);
    assert Claimed(cleared, map[]).objects[0] == ClaimedObject(cleared, map[], 0);
    assert BadExit(Claimed(cleared, map[]), 0);
  }

  /** Object #0 is protected, yet as an orphaned exit it is purged and the next repair refuses. */
  lemma OrphanedProtectedExitBreaksIdempotence()
    ensures Planned(ORPHAN_EXIT, map[], ROOM_TWO, ACCEPTING).Ok?
    ensures var (after, report) := Planned(ORPHAN_EXIT, map[], ROOM_TWO, ACCEPTING).value;
            Planned(after, report.links, ROOM_TWO, ACCEPTING) == Err(ProtectedUnavailable)
  {
    AcceptedWorldIsPlanned(ORPHAN_EXIT, map[], ROOM_TWO);
    OrphanExitIsDoomed();
    RepairIsIdempotentIff(ORPHAN_EXIT, map[], ROOM_TWO, ACCEPTING);
  }
}
