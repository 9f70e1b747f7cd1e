/** The planner as the server runs it: loops over a cloned world, proved against its specification. */
module RepairPlanner {
  import opened Prelude
  import opened Worlds
  import opened Lists
  import opened Reachability
  import opened Repair
  import opened RepairProofs

  // ----- Editing objects one at a time

  type Objects = map<nat, Object>

  /** The objects in `done` have reached their target; the others are as they started. */
  ghost predicate Edited(start: Objects, target: Objects, now: Objects, done: set<nat>) {
    start.Keys == target.Keys == now.Keys &&
    forall id :: id in start ==> now[id] == if id in done then target[id] else start[id]
  }

  lemma EditOne(start: Objects, target: Objects, now: Objects, done: set<nat>, id: nat)
    requires Edited(start, target, now, done) && id in start
    ensures Edited(start, target, now[id := target[id]], done + {id})
    ensures now[id] == target[id] ==> Edited(start, target, now, done + {id})
  {
  }

  lemma EditAll(start: Objects, target: Objects, now: Objects, done: set<nat>)
    requires Edited(start, target, now, done)
    requires forall id :: id in start && id !in done ==> target[id] == start[id]
    ensures now == target
  {
  }

  // ----- Protected objects

  method ClearProtected(before: World, c: Config) returns (r: Result<World, PlanError>)
    ensures r.Ok? <==> forall id :: id in Protected(c) ==> id in before.objects && !before.objects[id].kind.Garbage?
    ensures r == if r.Ok? then Ok(Cleared(before, c)) else Err(ProtectedUnavailable)
  {
    var objects: Objects, ids := before.objects, Ascending(Protected(c));
    ghost var done: set<nat>, target := {}, Cleared(before, c).objects;
    AscendingElements(Protected(c));
    for k := 0 to |ids|
      invariant done == Elements(ids[..k]) && Edited(before.objects, target, objects, done)
      invariant forall id :: id in done ==> id in before.objects && !before.objects[id].kind.Garbage?
    {
      var id := ids[k];
      AscendingPrefix(Protected(c), k);
      if id !in objects || objects[id].kind.Garbage? {
        return Err(ProtectedUnavailable);
      }
      EditOne(before.objects, target, objects, done, id);
      objects, done := objects[id := objects[id].(flags := objects[id].flags - {Going})], done + {id};
    }
    EditAll(before.objects, target, objects, done);
    return Ok(before.(objects := objects));
  }

  // ----- Competing claims

  type Claims = map<nat, seq<nat>>

  function ClaimsOn(claims: Claims, member: nat): seq<nat> { if member in claims then claims[member] else [] }

  /** Containers among `ids`, in that order, whose list of the right kind reaches the member. */
  function Claimants(w: World, raw: Links, member: nat, ids: seq<nat>): seq<nat>
    requires member in w.objects
  {
    var owners := Owners(w, raw, member);
    Filter((owner: nat) => owner in owners, ids)
  }

  method PushClaims(claims: Claims, members: seq<nat>, owner: nat) returns (r: Claims)
    requires Distinct(members)
    ensures forall m: nat :: ClaimsOn(r, m) == ClaimsOn(claims, m) + if m in members then [owner] else []
  {
    r := claims;
    for i := 0 to |members|
      invariant forall m: nat :: ClaimsOn(r, m) == ClaimsOn(claims, m) + if m in members[..i] then [owner] else []
    {
      assert members[..i + 1] == members[..i] + [members[i]];
      assert members[i] !in members[..i];
      r := r[members[i] := ClaimsOn(r, members[i]) + [owner]];
    }
    assert members[..|members|] == members;
  }

  lemma OwnerWalks(w: World, raw: Links, owner: nat, m: nat)
    requires owner in w.objects && m in w.objects && Container(w, owner)
    ensures owner in Owners(w, raw, m) <==> m in Chain(w, raw, owner, false) || m in Chain(w, raw, owner, true)
    ensures !(m in Chain(w, raw, owner, false) && m in Chain(w, raw, owner, true))
  {
    ChainFacts(w, raw, HeadSlot(raw, owner, false), false, {});
    ChainFacts(w, raw, HeadSlot(raw, owner, true), true, {});
  }

  method PushOwner(w: World, raw: Links, claims: Claims, owner: nat) returns (r: Claims)
    requires owner in w.objects
    ensures forall m :: m in w.objects ==>
              ClaimsOn(r, m) == ClaimsOn(claims, m) + if owner in Owners(w, raw, m) then [owner] else []
  {
    r := claims;
    if Container(w, owner) {
      var contents := WalkChain(w, raw, owner, false);
      var exits := WalkChain(w, raw, owner, true);
      ChainFacts(w, raw, HeadSlot(raw, owner, false), false, {});
      ChainFacts(w, raw, HeadSlot(raw, owner, true), true, {});
      r := PushClaims(r, contents, owner);
      r := PushClaims(r, exits, owner);
      forall m | m in w.objects
        ensures ClaimsOn(r, m) == ClaimsOn(claims, m) + if owner in Owners(w, raw, m) then [owner] else []
      {
        OwnerWalks(w, raw, owner, m);
      }
    }
  }

  ghost predicate ClaimsMatch(w: World, raw: Links, claims: Claims, ids: seq<nat>) {
    forall m :: m in w.objects ==> ClaimsOn(claims, m) == Claimants(w, raw, m, ids)
  }

  lemma ClaimantsGrow(w: World, raw: Links, m: nat, ids: seq<nat>, k: nat)
    requires m in w.objects && k < |ids|
    ensures Claimants(w, raw, m, ids[..k + 1]) ==
            Claimants(w, raw, m, ids[..k]) + if ids[k] in Owners(w, raw, m) then [ids[k]] else []
  {
    var owners := Owners(w, raw, m);
    assert ids[..k + 1] == ids[..k] + [ids[k]];
    FilterAppend((owner: nat) => owner in owners, ids[..k], [ids[k]]);
  }

  method CollectClaims(w: World, raw: Links, ids: seq<nat>) returns (claims: Claims)
    requires forall id :: id in ids ==> id in w.objects
    ensures ClaimsMatch(w, raw, claims, ids)
  {
    claims := map[];
    for k := 0 to |ids|
      invariant ClaimsMatch(w, raw, claims, ids[..k])
    {
      claims := PushOwner(w, raw, claims, ids[k]);
      forall m | m in w.objects
        ensures ClaimsOn(claims, m) == Claimants(w, raw, m, ids[..k + 1])
      {
        ClaimantsGrow(w, raw, m, ids, k);
      }
    }
    assert ids[..|ids|] == ids;
  }

  lemma {:induction false} FirstKeptIsLeast(keep: nat -> bool, s: seq<nat>)
    requires forall i, j :: 0 <= i < j < |s| ==> s[i] < s[j]
    ensures forall x :: x in Filter(keep, s) ==> Filter(keep, s)[0] <= x
  {
    if s != [] && !keep(s[0]) {
      FirstKeptIsLeast(keep, s[1..]);
    }
  }

  lemma ClaimantsFacts(w: World, raw: Links, id: nat, ids: seq<nat>)
    requires id in w.objects && ids == Ascending(w.objects.Keys)
    ensures forall owner :: owner in Claimants(w, raw, id, ids) <==> owner in Owners(w, raw, id)
    ensures Claimants(w, raw, id, ids) == [] <==> Owners(w, raw, id) == {}
    ensures Owners(w, raw, id) != {} ==> Claimants(w, raw, id, ids)[0] == Least(Owners(w, raw, id))
  {
    var owners := Owners(w, raw, id);
    FirstKeptIsLeast((owner: nat) => owner in owners, ids);
    var kept := Claimants(w, raw, id, ids);
    if owners != {} {
      assert Least(owners) in kept;
    }
    if kept != [] {
      assert kept[0] in kept;
    }
  }

  /** The stored location if its container claims the object, else the first claimant, else none. */
  method ResolveClaim(o: Object, owners: seq<nat>, ghost claimants: set<nat>) returns (r: Object)
    requires (forall owner :: owner in owners <==> owner in claimants) && (owners == [] <==> claimants == {})
    requires claimants != {} ==> owners[0] == Least(claimants)
    ensures r == Resolved(o, claimants)
  {
    r := o;
    if Placed(o) {
      r := o.(location :=
        if owners == [] then None
        else if o.location.Some? && o.location.value in owners then o.location
        else Some(owners[0]));
    }
  }

  method ClaimedAt(w: World, raw: Links, ids: seq<nat>, claims: Claims, id: nat) returns (o: Object)
    requires ids == Ascending(w.objects.Keys) && ClaimsMatch(w, raw, claims, ids) && id in w.objects
    ensures o == ClaimedObject(w, raw, id)
  {
    ClaimantsFacts(w, raw, id, ids);
    o := ResolveClaim(w.objects[id], ClaimsOn(claims, id), Owners(w, raw, id));
  }

  method ResolveClaims(w: World, raw: Links, ids: seq<nat>, claims: Claims) returns (v: World)
    requires ids == Ascending(w.objects.Keys) && ClaimsMatch(w, raw, claims, ids)
    ensures v == Claimed(w, raw)
  {
    var objects := ResolveAll(w, raw, ids, claims, Claimed(w, raw).objects);
    return w.(objects := objects);
  }

  method ResolveAll(w: World, raw: Links, ids: seq<nat>, claims: Claims, ghost target: Objects)
    returns (objects: Objects)
    requires ids == Ascending(w.objects.Keys) && ClaimsMatch(w, raw, claims, ids)
    requires target.Keys == w.objects.Keys && forall id :: id in target ==> target[id] == ClaimedObject(w, raw, id)
    ensures objects == target
  {
    objects := w.objects;
    ghost var done: set<nat> := {};
    AscendingElements(w.objects.Keys);
    for k := 0 to |ids|
      invariant done == Elements(ids[..k]) && Edited(w.objects, target, objects, done)
    {
      AscendingPrefix(w.objects.Keys, k);
      var o := ClaimedAt(w, raw, ids, claims, ids[k]);
      EditOne(w.objects, target, objects, done, ids[k]);
      objects, done := objects[ids[k] := o], done + {ids[k]};
    }
    EditAll(w.objects, target, objects, done);
  }

  // ----- Doomed exits

  /** Dooming exits never changes which objects are containers, so a single pass suffices. */
  lemma DoomingKeepsBadExits(w: World, objects: Objects, done: set<nat>, id: nat)
    requires Edited(w.objects, Doomed(w).objects, objects, done)
    requires id in w.objects && id !in done
    ensures BadExit(w.(objects := objects), id) <==> BadExit(w, id)
  {
    assert forall d :: Container(w.(objects := objects), d) <==> Container(w, d);
  }

  method DoomExits(w: World, ids: seq<nat>) returns (v: World)
    requires ids == Ascending(w.objects.Keys)
    ensures v == Doomed(w)
  {
    var objects: Objects := w.objects;
    ghost var done: set<nat>, target := {}, Doomed(w).objects;
    AscendingElements(w.objects.Keys);
    for k := 0 to |ids|
      invariant done == Elements(ids[..k]) && Edited(w.objects, target, objects, done)
    {
      AscendingPrefix(w.objects.Keys, k);
      DoomingKeepsBadExits(w, objects, done, ids[k]);
      EditOne(w.objects, target, objects, done, ids[k]);
      if BadExit(w.(objects := objects), ids[k]) {
        objects := objects[ids[k] := objects[ids[k]].(flags := objects[ids[k]].flags + {Going})];
      }
      done := done + {ids[k]};
    }
    EditAll(w.objects, target, objects, done);
    return w.(objects := objects);
  }

  // ----- The ascending pass

  method Rehouse(w: World, c: Config, id: nat) returns (r: Option<World>)
    requires id in w.objects
    ensures r == Housed(w, c, id)
  {
    if w.objects[id].home.Some? && Safe(w, id, w.objects[id].home.value) {
      return Some(w);
    }
    var dest := ReplacementHome(w, c, id);
    return if dest.None? then None else Some(With(w, id, w.objects[id].(home := dest)));
  }

  method Relocate(w: World, c: Config, id: nat) returns (r: Option<World>)
    requires id in w.objects
    ensures r == Located(w, c, id)
  {
    if w.objects[id].location.Some? && Safe(w, id, w.objects[id].location.value) {
      return Some(w);
    }
    var dest := ReplacementHome(w, c, id);
    return if dest.None? then None else Some(With(w, id, w.objects[id].(location := dest)));
  }

  method RepairOne(w: World, c: Config, live: set<nat>, id: nat) returns (r: Option<World>)
    requires id in w.objects
    ensures r == RepairObject(w, c, live, id)
  {
    if id !in live {
      return Some(w);
    }
    r := Some(With(w, id, Tidy(w.objects[id], live)));
    if OccupantKind(w.objects[id].kind) {
      r := Rehouse(r.value, c, id);
      if r.Some? {
        r := Relocate(r.value, c, id);
      }
    }
  }

  method RepairAll(w: World, c: Config, live: set<nat>, ids: seq<nat>) returns (r: Result<World, PlanError>)
    requires forall id :: id in ids ==> id in w.objects
    ensures r == Pass(w, c, live, ids)
  {
    var v := w;
    for k := 0 to |ids|
      invariant v.objects.Keys == w.objects.Keys
      invariant Pass(w, c, live, ids) == Pass(v, c, live, ids[k..])
    {
      assert ids[k..][0] == ids[k] && ids[k..][1..] == ids[k + 1..];
      var next := RepairOne(v, c, live, ids[k]);
      if next.None? {
        return Err(NoSafeHome(ids[k]));
      }
      v := next.value;
    }
    return Ok(v);
  }

  // ----- Purging and reporting

  lemma PlayersGrow(w: World, done: set<nat>, id: nat)
    requires id in w.objects
    ensures PlayersAmong(w, done + {id}) == PlayersAmong(w, done) + if w.objects[id].kind.Player? then {id} else {}
  {
  }

  method Purge(w: World, purges: set<nat>) returns (v: World, detachments: set<nat>)
    requires forall id :: id in purges ==> id in w.objects
    ensures v == Purged(w, purges)
    ensures detachments == PlayersAmong(w, purges)
  {
    var objects;
    objects, detachments := Entomb(w, purges, Purged(w, purges).objects);
    return w.(objects := objects, accounts := w.accounts - purges), detachments;
  }

  method Entomb(w: World, purges: set<nat>, ghost target: Objects) returns (objects: Objects, detachments: set<nat>)
    requires target.Keys == w.objects.Keys && forall id :: id in purges ==> id in w.objects
    requires forall id :: id in target ==>
               target[id] == if id in purges then Entombed(w.objects[id]) else w.objects[id]
    ensures objects == target && detachments == PlayersAmong(w, purges)
  {
    objects, detachments := w.objects, {};
    var ids := Ascending(purges);
    ghost var done: set<nat> := {};
    AscendingElements(purges);
    for k := 0 to |ids|
      invariant done == Elements(ids[..k]) && done <= purges && Edited(w.objects, target, objects, done)
      invariant detachments == PlayersAmong(w, done)
    {
      var id := ids[k];
      AscendingPrefix(purges, k);
      EditOne(w.objects, target, objects, done, id);
      PlayersGrow(w, done, id);
      detachments := if objects[id].kind.Player? then detachments + {id} else detachments;
      objects, done := objects[id := Entombed(objects[id])], done + {id};
    }
    EditAll(w.objects, target, objects, done);
  }

  method Compare(before: World, after: World, ids: seq<nat>)
    returns (fields: seq<FieldRepair>, relocations: seq<Relocation>, complete: bool)
    requires forall id :: id in ids ==> id in before.objects && id in after.objects
    ensures complete <==> forall id :: id in ids && Moved(before, after, id) ==> after.objects[id].location.Some?
    ensures complete ==> fields == FieldRepairs(before, after, ids) && relocations == Relocations(before, after, ids)
  {
    fields, relocations := [], [];
    for k := 0 to |ids|
      invariant fields == FieldRepairs(before, after, ids[..k])
      invariant relocations == Relocations(before, after, ids[..k])
      invariant forall i :: 0 <= i < k && Moved(before, after, ids[i]) ==> after.objects[ids[i]].location.Some?
    {
      var id := ids[k];
      assert ids[..k + 1][..k] == ids[..k];
      fields := fields + ChangedFields(id, before.objects[id], after.objects[id]);
      if Moved(before, after, id) && after.objects[id].location.None? {
        return fields, relocations, false;
      }
      relocations := relocations + RelocationOf(before, after, id);
    }
    assert ids[..|ids|] == ids;
    return fields, relocations, true;
  }

  lemma CleanMovesHavePlaces(before: World, after: World, ids: seq<nat>)
    requires Clean(after) && forall id :: id in ids ==> id in before.objects && id in after.objects
    ensures forall id :: id in ids && Moved(before, after, id) ==> after.objects[id].location.Some?
  {
  }

  method Unreachable(w: World, c: Config) returns (rooms: set<nat>)
    ensures rooms == UnreachableRooms(w, c)
  {
    var reachable := FindReachable(w, c.startingRoom);
    rooms := set id | id in w.objects && w.objects[id].kind.Room? && Floating !in w.objects[id].flags &&
                      id !in reachable;
  }

  // ----- The whole plan

  method Mark(cleared: World, raw: Links, ids: seq<nat>) returns (marked: World)
    requires ids == Ascending(cleared.objects.Keys)
    ensures marked == Doomed(Claimed(cleared, raw))
  {
    var claims := CollectClaims(cleared, raw, ids);
    var claimed := ResolveClaims(cleared, raw, ids, claims);
    assert claimed.objects.Keys == cleared.objects.Keys;
    marked := DoomExits(claimed, ids);
  }

  lemma PassKeepsKinds(marked: World, c: Config, ids: seq<nat>)
    requires ids == Ascending(marked.objects.Keys)
    requires Pass(marked, c, Live(marked), ids).Ok?
    ensures var w := Pass(marked, c, Live(marked), ids).value;
            w.objects.Keys == marked.objects.Keys &&
            (forall id :: id in marked.objects ==> w.objects[id].kind == marked.objects[id].kind) &&
            PlayersAmong(w, Purges(marked)) == PlayersAmong(marked, Purges(marked))
  {
    PassSettles(marked, c, Live(marked), ids);
  }

  /** The pass, the purge and the retired references. */
  method Finish(marked: World, c: Config, ids: seq<nat>) returns (r: Result<World, PlanError>, detachments: set<nat>)
    requires ids == Ascending(marked.objects.Keys)
    ensures var pass := Pass(marked, c, Live(marked), ids);
            r == if pass.Err? then Err(pass.error) else Ok(Retired(Purged(pass.value, Purges(marked)), Live(marked)))
    ensures r.Ok? ==> detachments == PlayersAmong(marked, Purges(marked))
  {
    detachments := {};
    var repaired := RepairAll(marked, c, Live(marked), ids);
    if repaired.Err? {
      return Err(repaired.error), {};
    }
    PassKeepsKinds(marked, c, ids);
    var w;
    w, detachments := Purge(repaired.value, Purges(marked));
    return Ok(Retired(w, Live(marked))), detachments;
  }

  /** The repaired world and the players it detaches, once the foundations hold. */
  method RepairWorld(before: World, cleared: World, raw: Links, c: Config)
    returns (r: Result<World, PlanError>, purges: set<nat>, detachments: set<nat>)
    requires cleared == Cleared(before, c)
    ensures r == Repaired(before, raw, c) && purges == Purges(Marked(before, raw, c))
    ensures var marked := Marked(before, raw, c);
            r.Ok? ==> detachments == PlayersAmong(marked, purges)
  {
    assert cleared.objects.Keys == before.objects.Keys;
    var ids := Ascending(before.objects.Keys);
    var marked := Mark(cleared, raw, ids);
    assert marked == Marked(before, raw, c) && marked.objects.Keys == before.objects.Keys;
    r, detachments := Finish(marked, c, ids);
    purges := Purges(marked);
  }

  method Describe(
    before: World, after: World, raw: Links, c: Config, ghost marked: World, purges: set<nat>, detachments: set<nat>)
    returns (report: Report)
    requires Clean(after) && after.objects.Keys == before.objects.Keys
    requires purges == Purges(marked) && detachments == PlayersAmong(marked, purges)
    ensures report == ReportOf(before, raw, c, marked, after)
  {
    var ids := Ascending(before.objects.Keys);
    CleanMovesHavePlaces(before, after, ids);
    var fields, relocations, complete := Compare(before, after, ids);
    assert complete;
    var unreachable := Unreachable(after, c);
    var links := RebuildLinks(after, raw);
    return Report(fields, relocations, links, ListChanges(raw, links), purges, detachments, unreachable);
  }

  /** Foundations that repair cannot synthesize; success yields the world with protected GOING cleared. */
  method LayFoundation(before: World, c: Config, host: Host) returns (r: Result<World, PlanError>)
    ensures var f := Foundation(before, c, host);
            r == if f.Err? then Err(f.error) else Ok(Cleared(before, c))
  {
    if !host.accounts(before) {
      return Err(AccountsInvalid);
    }
    if !(1 in before.objects && before.objects[1].kind.Player?) {
      return Err(GodMissing);
    }
    r := ClearProtected(before, c);
  }

  method PlanRepair(before: World, cleared: World, raw: Links, c: Config, host: Host)
    returns (r: Result<(World, Report), PlanError>)
    requires cleared == Cleared(before, c)
    ensures Repaired(before, raw, c).Err? ==> r == Err(Repaired(before, raw, c).error)
    ensures Repaired(before, raw, c).Ok? ==>
              r == Concluded(before, raw, c, host, Marked(before, raw, c), Repaired(before, raw, c).value)
  {
    var repaired, purges, detachments := RepairWorld(before, cleared, raw, c);
    if repaired.Err? {
      return Err(repaired.error);
    }
    RepairedIsClean(before, raw, c);
    r := Conclude(before, raw, c, host, Marked(before, raw, c), repaired.value, purges, detachments);
  }

  /** The planner as loops over the stages: the same plan, or the same first error, as the function. */
  method Plan(before: World, raw: Links, c: Config, host: Host) returns (r: Result<(World, Report), PlanError>)
    ensures r == Planned(before, raw, c, host)
  {
    var cleared := LayFoundation(before, c, host);
    if cleared.Err? {
      return Err(cleared.error);
    }
    r := PlanRepair(before, cleared.value, raw, c, host);
  }

  method Conclude(before: World, raw: Links, c: Config, host: Host, ghost marked: World, after: World,
                  purges: set<nat>, detachments: set<nat>)
    returns (r: Result<(World, Report), PlanError>)
    requires Clean(after) && after.objects.Keys == before.objects.Keys
    requires purges == Purges(marked) && detachments == PlayersAmong(marked, purges)
    ensures r == Concluded(before, raw, c, host, marked, after)
  {
    if purges != {} && !host.rolls(after, purges) {
      return Err(RollsLost);
    }
    var report := Describe(before, after, raw, c, marked, purges, detachments);
    if !(ObjectsValid(after, c) && host.accounts(after) && host.rest(after)) {
      return Err(WorldInvalid);
    }
    return Ok((after, report));
  }
}
