/** The database repair planner: its stages, the ascending rehoming pass and the finished plan. */
module Repair {
  import opened Prelude
  import opened Worlds
  import opened Lists
  import opened Reachability

  /** Whole-world checks the planner calls that read state outside this model. */
  datatype Host = Host(accounts: World -> bool, rolls: (World, set<nat>) -> bool, rest: World -> bool)

  datatype Field = LocationField | HomeField | ZoneField | AffiliationField | DroptoField | FlagsField

  datatype FieldRepair = FieldRepair(id: nat, field: Field)

  datatype Relocation = Relocation(id: nat, source: Option<int>, destination: int)

  datatype Report = Report(
    fields: seq<FieldRepair>,
    relocations: seq<Relocation>,
    links: Links,
    listChanges: seq<nat>,
    purges: set<nat>,
    detachments: set<nat>,
    unreachable: set<nat>)

  datatype PlanError =
    | AccountsInvalid
    | GodMissing
    | ProtectedUnavailable
    | NoSafeHome(id: nat)
    | RollsLost
    | WorldInvalid

  // ----- Stages before the pass

  function Protected(c: Config): set<nat> {
    var ids: set<int> := {0, 1, c.startingRoom, c.startingHome, c.defaultHome};
    set id: nat | id in ids
  }

  function Cleared(w: World, c: Config): World {
    w.(objects := map id | id in w.objects ::
      if id in Protected(c) then w.objects[id].(flags := w.objects[id].flags - {Going}) else w.objects[id])
  }

  /** Live containers whose persisted list of the right kind reaches the object. */
  function Owners(w: World, raw: Links, id: nat): set<nat>
    requires id in w.objects
  {
    set owner | owner in w.objects && Container(w, owner) && id in Chain(w, raw, owner, w.objects[id].kind.Exit?)
  }

  predicate Placed(o: Object) { (OccupantKind(o.kind) || o.kind.Exit?) && Going !in o.flags }

  /** The stored location wins if that container claims the object, else the lowest claimant. */
  function Resolved(o: Object, owners: set<nat>): Object {
    if !Placed(o) || (o.location.Some? && o.location.value in owners) then o
    else o.(location := if owners == {} then None else Some(Least(owners)))
  }

  function ClaimedObject(w: World, raw: Links, id: nat): Object
    requires id in w.objects
  {
    Resolved(w.objects[id], Owners(w, raw, id))
  }

  function Claimed(w: World, raw: Links): World {
    w.(objects := map id | id in w.objects :: ClaimedObject(w, raw, id))
  }

  predicate BadExit(w: World, id: int) {
    id in w.objects && w.objects[id].kind.Exit? &&
    !(w.objects[id].location.Some? && Container(w, w.objects[id].location.value) &&
      w.objects[id].destination.Some? && Container(w, w.objects[id].destination.value))
  }

  function Doomed(w: World): World {
    w.(objects := map id | id in w.objects ::
      if BadExit(w, id) then w.objects[id].(flags := w.objects[id].flags + {Going}) else w.objects[id])
  }

  function Marked(before: World, raw: Links, c: Config): World {
    Doomed(Claimed(Cleared(before, c), raw))
  }

  function Purges(w: World): set<nat> {
    set id | id in w.objects && !w.objects[id].kind.Garbage? && Going in w.objects[id].flags
  }

  function Live(w: World): set<nat> {
    set id | id in w.objects && !w.objects[id].kind.Garbage? && Going !in w.objects[id].flags
  }

  // ----- The ascending pass

  predicate LiveRef(r: Option<int>, live: set<nat>) { r.Some? ==> r.value in live }

  function Kept(r: Option<int>, live: set<nat>): Option<int> { if LiveRef(r, live) then r else None }

  function Tidy(o: Object, live: set<nat>): Object {
    o.(zone := Kept(o.zone, live),
       affiliation := Kept(o.affiliation, live),
       dropto := Kept(o.dropto, live),
       location := if o.kind.Room? then None else o.location,
       home := if o.kind.Room? || o.kind.Exit? then None else o.home)
  }

  function Listed(r: Option<int>): seq<int> { if r.Some? then [r.value] else [] }

  function FirstSafe(w: World, moved: nat, candidates: seq<int>): (r: Option<int>)
    ensures r.Some? ==> r.value in candidates && Safe(w, moved, r.value)
    ensures r.None? ==> forall d: int :: d in candidates ==> !Safe(w, moved, d)
  {
    if candidates == [] then None
    else if Safe(w, moved, candidates[0]) then Some(candidates[0])
    else FirstSafe(w, moved, candidates[1..])
  }

  /** Replacement homes in policy order: controlled location and home, then configured homes. */
  function Candidates(w: World, c: Config, moved: nat): seq<int>
    requires moved in w.objects
  {
    Filter((d: int) => Controls(w, moved, d), Listed(w.objects[moved].location) + Listed(w.objects[moved].home)) +
    [c.defaultHome, c.startingHome, c.startingRoom]
  }

  function ReplacementHome(w: World, c: Config, moved: nat): (r: Option<int>)
    requires moved in w.objects
    ensures r.Some? ==> Safe(w, moved, r.value)
  {
    FirstSafe(w, moved, Candidates(w, c, moved))
  }

  function With(w: World, id: nat, o: Object): World { w.(objects := w.objects[id := o]) }

  function Housed(w: World, c: Config, id: nat): (r: Option<World>)
    requires id in w.objects
    ensures r.Some? ==> r.value.objects.Keys == w.objects.Keys
  {
    var o := w.objects[id];
    if o.home.Some? && Safe(w, id, o.home.value) then Some(w) else
      match ReplacementHome(w, c, id)
      case None => None
      case Some(d) => Some(With(w, id, o.(home := Some(d))))
  }

  function Located(w: World, c: Config, id: nat): (r: Option<World>)
    requires id in w.objects
    ensures r.Some? ==> r.value.objects.Keys == w.objects.Keys
  {
    var o := w.objects[id];
    if o.location.Some? && Safe(w, id, o.location.value) then Some(w) else
      match ReplacementHome(w, c, id)
      case None => None
      case Some(d) => Some(With(w, id, o.(location := Some(d))))
  }

  /** One iteration of the repair loop. */
  function RepairObject(w: World, c: Config, live: set<nat>, id: nat): (r: Option<World>)
    requires id in w.objects
    ensures r.Some? ==> r.value.objects.Keys == w.objects.Keys
  {
    if id !in live then Some(w) else
      var tidied := With(w, id, Tidy(w.objects[id], live));
      if !OccupantKind(w.objects[id].kind) then Some(tidied) else
        match Housed(tidied, c, id)
        case None => None
        case Some(housed) => Located(housed, c, id)
  }

  function Pass(w: World, c: Config, live: set<nat>, ids: seq<nat>): Result<World, PlanError>
    requires forall id :: id in ids ==> id in w.objects
    decreases |ids|
  {
    if ids == [] then Ok(w) else
      match RepairObject(w, c, live, ids[0])
      case None => Err(NoSafeHome(ids[0]))
      case Some(v) => Pass(v, c, live, ids[1..])
  }

  // ----- Stages after the pass

  function Entombed(o: Object): Object {
    Object(o.generation, "Garbage", Garbage, None, None, None, None, None, None, {Going})
  }

  function Purged(w: World, purges: set<nat>): World {
    w.(objects := map id | id in w.objects :: if id in purges then Entombed(w.objects[id]) else w.objects[id],
       accounts := w.accounts - purges)
  }

  function PlayersAmong(w: World, ids: set<nat>): set<nat> {
    set id | id in ids && id in w.objects && w.objects[id].kind.Player?
  }

  function LiveOnly(ids: seq<int>, live: set<nat>): seq<int> { Filter((id: int) => id in live, ids) }

  function Retired(w: World, live: set<nat>): World {
    w.(channelAliases := map id | id in w.channelAliases && id in live :: w.channelAliases[id],
       lastPages := map id | id in w.lastPages && id in live :: LiveOnly(w.lastPages[id], live),
       channels := map name | name in w.channels ::
         Channel(LiveOnly(w.channels[name].users, live), Kept(w.channels[name].owner, live)))
  }

  predicate RefersToObject(w: World, r: Option<int>) {
    r.Some? ==> r.value in w.objects && !w.objects[r.value].kind.Garbage?
  }

  /** One surviving object's part of the whole-world validation. */
  predicate ObjectValid(w: World, id: nat)
    requires id in w.objects
  {
    var o := w.objects[id];
    Containment(w, o.location).Some? && id !in Containment(w, o.location).value &&
    (o.kind.Room? ==> o.location.None?) &&
    RefersToObject(w, o.location) && RefersToObject(w, o.home) && RefersToObject(w, o.destination) &&
    RefersToObject(w, o.zone) && RefersToObject(w, o.affiliation) && RefersToObject(w, o.dropto)
  }

  predicate IsRoom(w: World, id: int) { id in w.objects && w.objects[id].kind.Room? }

  predicate ObjectsValid(w: World, c: Config) {
    IsRoom(w, c.startingRoom) && IsRoom(w, c.startingHome) &&
    forall id :: id in w.objects && !w.objects[id].kind.Garbage? ==> ObjectValid(w, id)
  }

  // ----- The report

  function Noted(id: nat, field: Field, changed: bool): seq<FieldRepair> {
    if changed then [FieldRepair(id, field)] else []
  }

  function ChangedFields(id: nat, old': Object, new': Object): seq<FieldRepair> {
    Noted(id, LocationField, old'.location != new'.location) + Noted(id, HomeField, old'.home != new'.home) +
    Noted(id, ZoneField, old'.zone != new'.zone) + Noted(id, AffiliationField, old'.affiliation != new'.affiliation) +
    Noted(id, DroptoField, old'.dropto != new'.dropto) + Noted(id, FlagsField, old'.flags != new'.flags)
  }

  function FieldRepairs(before: World, after: World, ids: seq<nat>): seq<FieldRepair>
    requires forall id :: id in ids ==> id in before.objects && id in after.objects
  {
    if ids == [] then [] else
      var last := ids[|ids| - 1];
      FieldRepairs(before, after, ids[..|ids| - 1]) + ChangedFields(last, before.objects[last], after.objects[last])
  }

  predicate Moved(before: World, after: World, id: nat)
    requires id in before.objects && id in after.objects
  {
    OccupantKind(after.objects[id].kind) && before.objects[id].location != after.objects[id].location
  }

  function RelocationOf(before: World, after: World, id: nat): seq<Relocation>
    requires id in before.objects && id in after.objects
  {
    var new' := after.objects[id].location;
    if Moved(before, after, id) && new'.Some? then [Relocation(id, before.objects[id].location, new'.value)] else []
  }

  function Relocations(before: World, after: World, ids: seq<nat>): seq<Relocation>
    requires forall id :: id in ids ==> id in before.objects && id in after.objects
  {
    if ids == [] then []
    else Relocations(before, after, ids[..|ids| - 1]) + RelocationOf(before, after, ids[|ids| - 1])
  }

  function ListChanges(raw: Links, links: Links): seq<nat> {
    Filter((id: nat) => !(id in raw && id in links && raw[id] == links[id]), Ascending(links.Keys))
  }

  ghost function UnreachableRooms(w: World, c: Config): set<nat> {
    set id | id in w.objects && w.objects[id].kind.Room? && Floating !in w.objects[id].flags &&
             id !in Reachable(w, c.startingRoom)
  }

  ghost function ReportOf(before: World, raw: Links, c: Config, marked: World, after: World): Report
    requires after.objects.Keys == before.objects.Keys
  {
    var ids := Ascending(before.objects.Keys);
    Report(
      FieldRepairs(before, after, ids),
      Relocations(before, after, ids),
      Rebuilt(after, raw),
      ListChanges(raw, Rebuilt(after, raw)),
      Purges(marked),
      PlayersAmong(marked, Purges(marked)),
      UnreachableRooms(after, c))
  }

  lemma {:induction false} PassKeepsKeys(w: World, c: Config, live: set<nat>, ids: seq<nat>)
    requires forall id :: id in ids ==> id in w.objects
    ensures Pass(w, c, live, ids).Ok? ==> Pass(w, c, live, ids).value.objects.Keys == w.objects.Keys
    decreases |ids|
  {
    if ids != [] && RepairObject(w, c, live, ids[0]).Some? {
      PassKeepsKeys(RepairObject(w, c, live, ids[0]).value, c, live, ids[1..]);
    }
  }

  function Foundation(before: World, c: Config, host: Host): Result<(), PlanError> {
    if !host.accounts(before) then Err(AccountsInvalid)
    else if !(1 in before.objects && before.objects[1].kind.Player?) then Err(GodMissing)
    else if exists id :: id in Protected(c) && !(id in before.objects && !before.objects[id].kind.Garbage?) then
      Err(ProtectedUnavailable)
    else Ok(())
  }

  /** The repaired world before the final validation. */
  function Repaired(before: World, raw: Links, c: Config): (r: Result<World, PlanError>)
    ensures r.Ok? ==> r.value.objects.Keys == before.objects.Keys
  {
    var marked := Marked(before, raw, c);
    var ids := Ascending(before.objects.Keys);
    match Pass(marked, c, Live(marked), ids)
    case Err(e) => Err(e)
    case Ok(w) =>
      PassKeepsKeys(marked, c, Live(marked), ids);
      Ok(Retired(Purged(w, Purges(marked)), Live(marked)))
  }

  /** The checks outside the repair itself, and the report they release. */
  ghost function Concluded(before: World, raw: Links, c: Config, host: Host, marked: World, after: World)
    : Result<(World, Report), PlanError>
    requires after.objects.Keys == before.objects.Keys
  {
    if Purges(marked) != {} && !host.rolls(after, Purges(marked)) then Err(RollsLost)
    else if !(ObjectsValid(after, c) && host.accounts(after) && host.rest(after)) then Err(WorldInvalid)
    else Ok((after, ReportOf(before, raw, c, marked, after)))
  }

  /** The planner as one function of the world, its persisted lists and the configuration. */
  ghost function Planned(before: World, raw: Links, c: Config, host: Host): Result<(World, Report), PlanError> {
    if Foundation(before, c, host).Err? then Err(Foundation(before, c, host).error) else
      match Repaired(before, raw, c)
      case Err(e) => Err(e)
      case Ok(after) => Concluded(before, raw, c, host, Marked(before, raw, c), after)
  }
}
