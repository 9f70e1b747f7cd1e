/** What a plan does to every object, list and report entry, stated from the world it was given. */
module RepairMeaning {
  import opened Prelude
  import opened Worlds
  import opened Lists
  import opened Reachability
  import opened Repair
  import opened RepairProofs

  // ----- Who counts as alive, and who holds whom

  /** An object the plan starts from: not garbage, and not GOING unless it is protected. */
  ghost predicate StartsLive(before: World, c: Config, id: int) {
    id in before.objects && !before.objects[id].kind.Garbage? &&
    (Going !in before.objects[id].flags || id in {0, 1, c.startingRoom, c.startingHome, c.defaultHome})
  }

  ghost predicate Holder(before: World, c: Config, d: int) {
    StartsLive(before, c, d) && ContainerKind(before.objects[d].kind)
  }

  /** A live container whose own persisted list of the object's kind reaches it. */
  ghost predicate Reaches(before: World, raw: Links, c: Config, d: int, id: nat)
    requires id in before.objects
  {
    Holder(before, c, d) && id in Chain(before, raw, d, before.objects[id].kind.Exit?)
  }

  /** The stored location if its list reaches the object, else the least container that does, else none. */
  ghost predicate RightfulPlace(before: World, raw: Links, c: Config, id: nat, place: Option<int>)
    requires id in before.objects
  {
    var stored := before.objects[id].location;
    if stored.Some? && Reaches(before, raw, c, stored.value, id) then place == stored
    else if place.Some? then
      Reaches(before, raw, c, place.value, id) &&
      forall d :: Reaches(before, raw, c, d, id) ==> place.value <= d
    else forall d :: !Reaches(before, raw, c, d, id)
  }

  lemma {:induction false} ChainIgnoresFlags(w: World, v: World, raw: Links, next: int, ofExits: bool, seen: set<nat>)
    requires w.objects.Keys == v.objects.Keys
    requires forall id :: id in w.objects ==> w.objects[id].kind == v.objects[id].kind
    ensures ChainFrom(w, raw, next, ofExits, seen) == ChainFrom(v, raw, next, ofExits, seen)
    decreases w.objects.Keys - seen
  {
    if !(next < 0 || next in seen || next !in w.objects || !MemberKind(w.objects[next].kind, ofExits)) {
      ChainIgnoresFlags(w, v, raw, NextSlot(raw, next), ofExits, seen + {next});
    }
  }

  /** What clearing does, object by object. */
  ghost predicate ClearedFrom(before: World, c: Config, cleared: World) {
    cleared == before.(objects := cleared.objects) && cleared.objects.Keys == before.objects.Keys &&
    forall id :: id in before.objects ==>
      cleared.objects[id] == before.objects[id].(flags := cleared.objects[id].flags) &&
      (Going in cleared.objects[id].flags <==>
        Going in before.objects[id].flags && id !in {0, 1, c.startingRoom, c.startingHome, c.defaultHome}) &&
      cleared.objects[id].flags - {Going} == before.objects[id].flags - {Going}
  }

  lemma ClearedExactly(before: World, c: Config)
    ensures ClearedFrom(before, c, Cleared(before, c))
  {
    var cleared := Cleared(before, c);
    forall id | id in before.objects
      ensures id in Protected(c) <==> id in {0, 1, c.startingRoom, c.startingHome, c.defaultHome}
    {
    }
  }

  lemma OwnersExactly(before: World, raw: Links, c: Config, cleared: World, id: nat, d: int)
    requires ClearedFrom(before, c, cleared) && id in before.objects
    ensures d in Owners(cleared, raw, id) <==> Reaches(before, raw, c, d, id)
  {
    if d in before.objects {
      ChainIgnoresFlags(before, cleared, raw, HeadSlot(raw, d, before.objects[id].kind.Exit?),
                        before.objects[id].kind.Exit?, {});
    }
  }

  /** Competing claims on one object are settled as the policy says. */
  lemma ClaimExactly(before: World, raw: Links, c: Config, cleared: World, id: nat)
    requires ClearedFrom(before, c, cleared) && id in before.objects
    ensures var o, claimed := before.objects[id], ClaimedObject(cleared, raw, id);
            claimed == cleared.objects[id].(location := claimed.location) &&
            if StartsLive(before, c, id) && !o.kind.Room? then RightfulPlace(before, raw, c, id, claimed.location)
            else claimed.location == o.location
  {
    forall d: int
      ensures d in Owners(cleared, raw, id) <==> Reaches(before, raw, c, d, id)
    {
      OwnersExactly(before, raw, c, cleared, id, d);
    }
    var owners := Owners(cleared, raw, id);
    assert owners != {} ==> Least(owners) in owners;
  }

  // ----- Exits and purges

  /** After the claims are settled an exit must join two live containers. */
  ghost predicate Joins(before: World, c: Config, o: Object) {
    o.location.Some? && Holder(before, c, o.location.value) && o.destination.Some? &&
    Holder(before, c, o.destination.value)
  }

  /** What the stages before the pass make of one object. */
  ghost predicate MarkedFrom(before: World, raw: Links, c: Config, id: nat, p: Object)
    requires id in before.objects
  {
    var o := before.objects[id];
    p == o.(location := p.location, flags := p.flags) && p.flags - {Going} == o.flags - {Going} &&
    (if StartsLive(before, c, id) && !o.kind.Room? then RightfulPlace(before, raw, c, id, p.location)
     else p.location == o.location) &&
    (!o.kind.Garbage? ==>
      (Going in p.flags <==> !StartsLive(before, c, id) || (o.kind.Exit? && !Joins(before, c, p))))
  }

  lemma HoldersAreContainers(before: World, raw: Links, c: Config, cleared: World, claimed: World, d: int)
    requires ClearedFrom(before, c, cleared) && claimed.objects.Keys == before.objects.Keys
    requires forall id :: id in before.objects ==> claimed.objects[id] == ClaimedObject(cleared, raw, id)
    ensures Container(claimed, d) <==> Holder(before, c, d)
  {
    if d in before.objects {
      ClaimExactly(before, raw, c, cleared, d);
    }
  }

  lemma JoinsExactly(before: World, raw: Links, c: Config, cleared: World, claimed: World, id: nat)
    requires ClearedFrom(before, c, cleared) && claimed.objects.Keys == before.objects.Keys && id in before.objects
    requires forall id :: id in before.objects ==> claimed.objects[id] == ClaimedObject(cleared, raw, id)
    ensures BadExit(claimed, id) <==> claimed.objects[id].kind.Exit? && !Joins(before, c, claimed.objects[id])
  {
    var p := claimed.objects[id];
    if p.location.Some? {
      HoldersAreContainers(before, raw, c, cleared, claimed, p.location.value);
    }
    if p.destination.Some? {
      HoldersAreContainers(before, raw, c, cleared, claimed, p.destination.value);
    }
  }

  lemma MarkedObject(before: World, raw: Links, c: Config, cleared: World, claimed: World, id: nat)
    requires ClearedFrom(before, c, cleared) && claimed.objects.Keys == before.objects.Keys && id in before.objects
    requires forall id :: id in before.objects ==> claimed.objects[id] == ClaimedObject(cleared, raw, id)
    ensures MarkedFrom(before, raw, c, id, Doomed(claimed).objects[id])
  {
    ClaimExactly(before, raw, c, cleared, id);
    JoinsExactly(before, raw, c, cleared, claimed, id);
  }

  /** Claims, dooming and purging, for every object of every world. */
  lemma MarkedExactly(before: World, raw: Links, c: Config, id: nat)
    requires id in before.objects
    ensures var marked := Marked(before, raw, c);
            marked.objects.Keys == before.objects.Keys && MarkedFrom(before, raw, c, id, marked.objects[id])
  {
    ClearedExactly(before, c);
    MarkedObject(before, raw, c, Cleared(before, c), Claimed(Cleared(before, c), raw), id);
  }

  /** Exactly these objects are purged: the unprotected GOING, and exits that do not join live containers. */
  lemma PurgedExactly(before: World, raw: Links, c: Config, id: nat)
    requires id in before.objects
    ensures id in Purges(Marked(before, raw, c)) <==>
            !before.objects[id].kind.Garbage? &&
            (!StartsLive(before, c, id) ||
             (before.objects[id].kind.Exit? && !Joins(before, c, Marked(before, raw, c).objects[id])))
    ensures id in Live(Marked(before, raw, c)) <==>
            !before.objects[id].kind.Garbage? && id !in Purges(Marked(before, raw, c))
  {
    MarkedExactly(before, raw, c, id);
  }

  // ----- Survivors

  /** A reference survives exactly when what it names does. */
  ghost predicate KeepsRef(old': Option<int>, new': Option<int>, live: set<nat>) {
    new' == if old'.Some? && old'.value in live then old' else None
  }

  /** What the pass makes of a survivor, apart from an occupant's two places. */
  ghost predicate TidiedTo(o: Object, p: Object, live: set<nat>) {
    p == o.(zone := p.zone, affiliation := p.affiliation, dropto := p.dropto, location := p.location, home := p.home) &&
    KeepsRef(o.zone, p.zone, live) && KeepsRef(o.affiliation, p.affiliation, live) &&
    KeepsRef(o.dropto, p.dropto, live) &&
    (o.kind.Room? ==> p.location.None? && p.home.None?) &&
    (o.kind.Exit? ==> p.location == o.location && p.home.None?)
  }

  /** An unsafe home, and then an unsafe location, is replaced by the first safe place of the policy. */
  ghost predicate RehousedTo(tidied: World, c: Config, id: nat, p: Object)
    requires id in tidied.objects
  {
    var o := tidied.objects[id];
    var housed := With(tidied, id, o.(home := p.home));
    p.home == (if SafeRef(tidied, id, o.home) then o.home else Preferred(tidied, c, id)) &&
    p.location == if SafeRef(housed, id, o.location) then o.location else Preferred(housed, c, id)
  }

  lemma HousedTo(w: World, c: Config, id: nat, v: World)
    requires id in w.objects && Housed(w, c, id) == Some(v)
    ensures var o := w.objects[id];
            v == With(w, id, o.(home := v.objects[id].home)) &&
            v.objects[id].home == if SafeRef(w, id, o.home) then o.home else Preferred(w, c, id)
  {
    ReplacementHomeIsPreferred(w, c, id);
    assert w.objects[id := w.objects[id]] == w.objects;
  }

  lemma LocatedTo(w: World, c: Config, id: nat, v: World)
    requires id in w.objects && Located(w, c, id) == Some(v)
    ensures var o := w.objects[id];
            v.objects[id] == o.(location := v.objects[id].location) &&
            v.objects[id].location == if SafeRef(w, id, o.location) then o.location else Preferred(w, c, id)
  {
    ReplacementHomeIsPreferred(w, c, id);
  }

  /** One iteration, spelled out for its own object. */
  lemma RepairedTo(w: World, c: Config, live: set<nat>, id: nat, v: World)
    requires id in w.objects && RepairObject(w, c, live, id) == Some(v)
    ensures id in v.objects
    ensures id !in live ==> v == w
    ensures id in live ==> TidiedTo(w.objects[id], v.objects[id], live)
    ensures id in live && OccupantKind(w.objects[id].kind) ==>
              RehousedTo(With(w, id, Tidy(w.objects[id], live)), c, id, v.objects[id])
  {
    if id in live && OccupantKind(w.objects[id].kind) {
      var tidied := With(w, id, Tidy(w.objects[id], live));
      var housed := Housed(tidied, c, id).value;
      HousedTo(tidied, c, id, housed);
      LocatedTo(housed, c, id, v);
    }
  }

  lemma {:induction false} PassTidies(w: World, c: Config, live: set<nat>, ids: seq<nat>, k: nat)
    requires (forall id :: id in ids ==> id in w.objects) && Distinct(ids) && Pass(w, c, live, ids).Ok?
    requires k in w.objects
    ensures var v := Pass(w, c, live, ids).value;
            k in v.objects &&
            if k in ids && k in live then TidiedTo(w.objects[k], v.objects[k], live) else v.objects[k] == w.objects[k]
    decreases |ids|
  {
    if ids != [] {
      var u := RepairObject(w, c, live, ids[0]).value;
      RepairStep(w, c, live, ids[0], u);
      RepairedTo(w, c, live, ids[0], u);
      assert ids == [ids[0]] + ids[1..] && ids[0] !in ids[1..];
      PassTidies(u, c, live, ids[1..], k);
    }
  }

  lemma {:induction false} PassReaches(w: World, c: Config, live: set<nat>, ids: seq<nat>, k: nat)
    requires (forall id :: id in ids ==> id in w.objects) && Distinct(ids) && Pass(w, c, live, ids).Ok? && k < |ids|
    ensures Pass(w, c, live, ids[..k]).Ok?
    ensures var reached := Pass(w, c, live, ids[..k]).value;
            ids[k] in reached.objects && reached.objects[ids[k]] == w.objects[ids[k]] &&
            RepairObject(reached, c, live, ids[k]).Some? &&
            var v, done := RepairObject(reached, c, live, ids[k]).value, Pass(w, c, live, ids).value;
            ids[k] in v.objects && ids[k] in done.objects && done.objects[ids[k]] == v.objects[ids[k]]
    decreases |ids|
  {
    var u := RepairObject(w, c, live, ids[0]).value;
    RepairStep(w, c, live, ids[0], u);
    assert ids[0] !in ids[1..];
    if k == 0 {
      PassTidies(u, c, live, ids[1..], ids[0]);
    } else {
      assert ids[..k][0] == ids[0] && ids[..k][1..] == ids[1..][..k - 1];
      PassReaches(u, c, live, ids[1..], k - 1);
    }
  }

  /** Every surviving occupant ends where the policy puts it in the world the pass has reached. */
  lemma PassRehouses(w: World, c: Config, live: set<nat>, ids: seq<nat>, k: nat)
    requires (forall id :: id in ids ==> id in w.objects) && Distinct(ids) && Pass(w, c, live, ids).Ok? && k < |ids|
    requires ids[k] in live && OccupantKind(w.objects[ids[k]].kind)
    ensures Pass(w, c, live, ids[..k]).Ok?
    ensures var reached, done := Pass(w, c, live, ids[..k]).value, Pass(w, c, live, ids).value;
            ids[k] in reached.objects && ids[k] in done.objects &&
            RehousedTo(With(reached, ids[k], Tidy(reached.objects[ids[k]], live)), c, ids[k], done.objects[ids[k]])
  {
    PassReaches(w, c, live, ids, k);
    var reached := Pass(w, c, live, ids[..k]).value;
    RepairedTo(reached, c, live, ids[k], RepairObject(reached, c, live, ids[k]).value);
  }

  /** What the whole repair leaves of one object. */
  ghost predicate EndsAs(before: World, c: Config, id: nat, m: Object, live: set<nat>, p: Object)
    requires id in before.objects
  {
    if id in live then TidiedTo(m, p, live) && p.flags == before.objects[id].flags - {Going}
    else if before.objects[id].kind.Garbage? then p == m
    else p == Object(before.objects[id].generation, "Garbage", Garbage, None, None, None, None, None, None, {Going})
  }

  lemma FinishedTo(before: World, raw: Links, c: Config, marked: World, w: World, id: nat)
    requires marked.objects.Keys == w.objects.Keys && id in before.objects && id in marked.objects
    requires MarkedFrom(before, raw, c, id, marked.objects[id])
    requires if id in Live(marked) then TidiedTo(marked.objects[id], w.objects[id], Live(marked))
             else w.objects[id] == marked.objects[id]
    ensures var after := Retired(Purged(w, Purges(marked)), Live(marked));
            id in after.objects && EndsAs(before, c, id, marked.objects[id], Live(marked), after.objects[id])
  {
  }

  /**
   * Every object of a repaired world: a survivor keeps its identity, name, kind, destination,
   * flags and live references, a purged one is a tombstone of its generation, garbage is untouched.
   */
  lemma RepairedExactly(before: World, raw: Links, c: Config, id: nat)
    requires Repaired(before, raw, c).Ok? && id in before.objects
    ensures var marked, after := Marked(before, raw, c), Repaired(before, raw, c).value;
            id in after.objects && id in marked.objects &&
            EndsAs(before, c, id, marked.objects[id], Live(marked), after.objects[id])
  {
    var marked, ids := Marked(before, raw, c), Ascending(before.objects.Keys);
    MarkedExactly(before, raw, c, id);
    PassTidies(marked, c, Live(marked), ids, id);
    PassKeepsKeys(marked, c, Live(marked), ids);
    FinishedTo(before, raw, c, marked, Pass(marked, c, Live(marked), ids).value, id);
  }

  // ----- Accounts, channels, aliases and pages

  /** The live members of a list, in their old order. */
  ghost function Surviving(ids: seq<int>, live: set<nat>): seq<int> {
    if ids == [] then [] else (if ids[0] in live then [ids[0]] else []) + Surviving(ids[1..], live)
  }

  lemma {:induction false} LiveOnlySurvive(ids: seq<int>, live: set<nat>)
    ensures LiveOnly(ids, live) == Surviving(ids, live)
  {
    if ids != [] {
      var keep := (id: int) => id in live;
      assert ids == [ids[0]] + ids[1..] && [ids[0]][1..] == [];
      FilterAppend(keep, [ids[0]], ids[1..]);
      LiveOnlySurvive(ids[1..], live);
    }
  }

  ghost predicate ChannelKept(old': Channel, new': Channel, live: set<nat>) {
    new'.users == Surviving(old'.users, live) && KeepsRef(old'.owner, new'.owner, live)
  }

  ghost predicate AliasesKept(old': map<int, seq<string>>, new': map<int, seq<string>>, live: set<nat>) {
    (forall id: int :: id in new' <==> id in old' && id in live) &&
    forall id: int :: id in new' ==> new'[id] == old'[id]
  }

  ghost predicate PagesKept(old': map<int, seq<int>>, new': map<int, seq<int>>, live: set<nat>) {
    (forall id: int :: id in new' <==> id in old' && id in live) &&
    forall id: int :: id in new' ==> new'[id] == Surviving(old'[id], live)
  }

  ghost predicate ChannelsKept(old': map<string, Channel>, new': map<string, Channel>, live: set<nat>) {
    new'.Keys == old'.Keys && forall name :: name in new' ==> ChannelKept(old'[name], new'[name], live)
  }

  /** Dead names leave the directory; live ones stay, in order. */
  ghost predicate DirectoryKept(old': World, new': World, purges: set<nat>, live: set<nat>) {
    new'.accounts == old'.accounts - purges && AliasesKept(old'.channelAliases, new'.channelAliases, live) &&
    PagesKept(old'.lastPages, new'.lastPages, live) && ChannelsKept(old'.channels, new'.channels, live)
  }

  lemma PagesSurvive(pages: map<int, seq<int>>, live: set<nat>)
    ensures PagesKept(pages, map id | id in pages && id in live :: LiveOnly(pages[id], live), live)
  {
    forall id: int | id in pages
      ensures LiveOnly(pages[id], live) == Surviving(pages[id], live)
    {
      LiveOnlySurvive(pages[id], live);
    }
  }

  lemma ChannelsSurvive(channels: map<string, Channel>, live: set<nat>)
    ensures ChannelsKept(channels, map name | name in channels ::
              Channel(LiveOnly(channels[name].users, live), Kept(channels[name].owner, live)), live)
  {
    forall name | name in channels
      ensures LiveOnly(channels[name].users, live) == Surviving(channels[name].users, live)
    {
      LiveOnlySurvive(channels[name].users, live);
    }
  }

  lemma RetiredKeeps(old': World, w: World, purges: set<nat>, live: set<nat>)
    requires w == old'.(objects := w.objects)
    ensures DirectoryKept(old', Retired(Purged(w, purges), live), purges, live)
  {
    PagesSurvive(old'.lastPages, live);
    ChannelsSurvive(old'.channels, live);
  }

  lemma DirectoryExactly(before: World, raw: Links, c: Config)
    requires Repaired(before, raw, c).Ok?
    ensures var marked := Marked(before, raw, c);
            DirectoryKept(before, Repaired(before, raw, c).value, Purges(marked), Live(marked))
  {
    var marked, ids := Marked(before, raw, c), Ascending(before.objects.Keys);
    MarkedKeepsDirectory(before, raw, c);
    PassSettles(marked, c, Live(marked), ids);
    RetiredKeeps(before, Pass(marked, c, Live(marked), ids).value, Purges(marked), Live(marked));
  }

  lemma MarkedKeepsDirectory(before: World, raw: Links, c: Config)
    ensures Marked(before, raw, c) == before.(objects := Marked(before, raw, c).objects)
  {
  }

  // ----- The report

  predicate Differs(o: Object, p: Object, f: Field) {
    match f
    case LocationField => o.location != p.location
    case HomeField => o.home != p.home
    case ZoneField => o.zone != p.zone
    case AffiliationField => o.affiliation != p.affiliation
    case DroptoField => o.dropto != p.dropto
    case FlagsField => o.flags != p.flags
  }

  function FieldRank(f: Field): nat {
    match f
    case LocationField => 0
    case HomeField => 1
    case ZoneField => 2
    case AffiliationField => 3
    case DroptoField => 4
    case FlagsField => 5
  }

  ghost predicate InReportOrder(fields: seq<FieldRepair>) {
    forall i, j :: 0 <= i < j < |fields| ==>
      fields[i].id < fields[j].id ||
      (fields[i].id == fields[j].id && FieldRank(fields[i].field) < FieldRank(fields[j].field))
  }

  /** Reports of one object, in order, on fields ranked below `n`. */
  ghost predicate Ranked(fields: seq<FieldRepair>, id: nat, n: nat) {
    InReportOrder(fields) && forall x :: x in fields ==> x.id == id && FieldRank(x.field) < n
  }

  lemma RankedGrows(fields: seq<FieldRepair>, id: nat, f: Field, changed: bool)
    requires Ranked(fields, id, FieldRank(f))
    ensures Ranked(fields + Noted(id, f, changed), id, FieldRank(f) + 1)
  {
    forall i | 0 <= i < |fields|
      ensures fields[i].id == id && FieldRank(fields[i].field) < FieldRank(f)
    {
      assert fields[i] in fields;
    }
  }

  lemma RankedThree(fields: seq<FieldRepair>, id: nat, f: Field, a: bool, g: Field, b: bool, h: Field, c: bool)
    requires Ranked(fields, id, FieldRank(f)) && FieldRank(g) == FieldRank(f) + 1 && FieldRank(h) == FieldRank(g) + 1
    ensures Ranked(fields + Noted(id, f, a) + Noted(id, g, b) + Noted(id, h, c), id, FieldRank(h) + 1)
  {
    RankedGrows(fields, id, f, a);
    RankedGrows(fields + Noted(id, f, a), id, g, b);
    RankedGrows(fields + Noted(id, f, a) + Noted(id, g, b), id, h, c);
  }

  lemma ChangedFieldsInOrder(id: nat, o: Object, p: Object)
    ensures Ranked(ChangedFields(id, o, p), id, 6)
  {
    var l, h, z := o.location != p.location, o.home != p.home, o.zone != p.zone;
    RankedThree([], id, LocationField, l, HomeField, h, ZoneField, z);
    var places := Noted(id, LocationField, l) + Noted(id, HomeField, h) + Noted(id, ZoneField, z);
    assert [] + Noted(id, LocationField, l) == Noted(id, LocationField, l);
    RankedThree(places, id, AffiliationField, o.affiliation != p.affiliation, DroptoField, o.dropto != p.dropto,
                FlagsField, o.flags != p.flags);
  }

  lemma ChangedFieldsExactly(id: nat, o: Object, p: Object, r: FieldRepair)
    ensures r in ChangedFields(id, o, p) <==> r.id == id && Differs(o, p, r.field)
  {
  }

  lemma BelowLast(ids: seq<nat>, id: nat)
    requires Increasing(ids) && ids != [] && id in ids[..|ids| - 1]
    ensures id < ids[|ids| - 1]
  {
  }

  /** The field report lists exactly the changed fields. */
  lemma {:induction false} FieldReportExactly(before: World, after: World, ids: seq<nat>, r: FieldRepair)
    requires forall id :: id in ids ==> id in before.objects && id in after.objects
    ensures r in FieldRepairs(before, after, ids) <==>
            r.id in ids && Differs(before.objects[r.id], after.objects[r.id], r.field)
  {
    if ids != [] {
      var rest, last := ids[..|ids| - 1], ids[|ids| - 1];
      FieldReportExactly(before, after, rest, r);
      ChangedFieldsExactly(last, before.objects[last], after.objects[last], r);
      assert ids == rest + [last];
    }
  }

  /** It goes by object and then in the fixed field order. */
  lemma {:induction false} FieldReportInOrder(before: World, after: World, ids: seq<nat>)
    requires (forall id :: id in ids ==> id in before.objects && id in after.objects) && Increasing(ids)
    ensures InReportOrder(FieldRepairs(before, after, ids))
  {
    if ids != [] {
      var rest, last := ids[..|ids| - 1], ids[|ids| - 1];
      FieldReportInOrder(before, after, rest);
      var fields := FieldRepairs(before, after, rest);
      forall x | x in fields
        ensures x.id < last
      {
        FieldReportExactly(before, after, rest, x);
        BelowLast(ids, x.id);
      }
      ChangedFieldsInOrder(last, before.objects[last], after.objects[last]);
      ReportsAppend(fields, ChangedFields(last, before.objects[last], after.objects[last]), last);
    }
  }

  lemma ReportsAppend(a: seq<FieldRepair>, b: seq<FieldRepair>, last: nat)
    requires InReportOrder(a) && InReportOrder(b)
    requires (forall x :: x in a ==> x.id < last) && forall x :: x in b ==> x.id == last
    ensures InReportOrder(a + b)
  {
    forall i, j | 0 <= i < |a| && 0 <= j < |b|
      ensures a[i].id < b[j].id
    {
      assert a[i] in a && b[j] in b;
    }
  }

  /** The relocation of one occupant, as its old and new locations give it. */
  ghost predicate Relocates(before: World, after: World, r: Relocation)
    requires r.id in before.objects && r.id in after.objects
  {
    OccupantKind(after.objects[r.id].kind) && before.objects[r.id].location == r.source &&
    after.objects[r.id].location == Some(r.destination) && r.source != Some(r.destination)
  }

  /** The relocation report lists exactly the occupants whose location changed. */
  lemma {:induction false} RelocationReportExactly(before: World, after: World, ids: seq<nat>, r: Relocation)
    requires forall id :: id in ids ==> id in before.objects && id in after.objects
    ensures r in Relocations(before, after, ids) <==> r.id in ids && Relocates(before, after, r)
  {
    if ids != [] {
      var rest, last := ids[..|ids| - 1], ids[|ids| - 1];
      RelocationReportExactly(before, after, rest, r);
      assert ids == rest + [last];
    }
  }

  ghost predicate MovesAscend(moves: seq<Relocation>) {
    forall i, j :: 0 <= i < j < |moves| ==> moves[i].id < moves[j].id
  }

  lemma {:induction false} RelocationReportInOrder(before: World, after: World, ids: seq<nat>)
    requires (forall id :: id in ids ==> id in before.objects && id in after.objects) && Increasing(ids)
    ensures MovesAscend(Relocations(before, after, ids))
  {
    if ids != [] {
      var rest, last := ids[..|ids| - 1], ids[|ids| - 1];
      RelocationReportInOrder(before, after, rest);
      var moves := Relocations(before, after, rest);
      forall i | 0 <= i < |moves|
        ensures moves[i].id < last
      {
        RelocationReportExactly(before, after, rest, moves[i]);
        BelowLast(ids, moves[i].id);
      }
    }
  }

  /** What a successful plan reports, read off the worlds before and after. */
  ghost predicate Reports(before: World, raw: Links, c: Config, after: World, report: Report) {
    (forall r :: r in report.fields <==>
      r.id in before.objects && r.id in after.objects && Differs(before.objects[r.id], after.objects[r.id], r.field)) &&
    InReportOrder(report.fields) &&
    (forall r :: r in report.relocations <==>
      r.id in before.objects && r.id in after.objects && Relocates(before, after, r)) &&
    MovesAscend(report.relocations) &&
    report.links == Rebuilt(after, raw) && Increasing(report.listChanges) &&
    (forall id :: id in report.listChanges <==>
      id in report.links && !(id in raw && raw[id] == report.links[id])) &&
    (forall id :: id in report.detachments <==>
      id in report.purges && id in before.objects && before.objects[id].kind.Player?) &&
    (forall id :: id in report.unreachable <==>
      id in after.objects && after.objects[id].kind.Room? && Floating !in after.objects[id].flags &&
      !Reachability.Connected(after, c.startingRoom, id))
  }

  lemma ListReportExactly(raw: Links, links: Links, id: nat)
    ensures Increasing(ListChanges(raw, links))
    ensures id in ListChanges(raw, links) <==> id in links && !(id in raw && raw[id] == links[id])
  {
    FilterIncreasing((id: nat) => !(id in raw && id in links && raw[id] == links[id]), Ascending(links.Keys));
  }

  lemma UnreachableExactly(w: World, c: Config, id: nat)
    ensures id in UnreachableRooms(w, c) <==>
            id in w.objects && w.objects[id].kind.Room? && Floating !in w.objects[id].flags &&
            !Reachability.Connected(w, c.startingRoom, id)
  {
    ReachableIsLeastClosed(w, c.startingRoom);
  }

  lemma ReportExactly(before: World, raw: Links, c: Config, marked: World, after: World)
    requires after.objects.Keys == before.objects.Keys == marked.objects.Keys
    requires forall id :: id in before.objects ==> marked.objects[id].kind == before.objects[id].kind
    ensures var report := ReportOf(before, raw, c, marked, after);
            Reports(before, raw, c, after, report) && report.purges == Purges(marked)
  {
    var ids := Ascending(before.objects.Keys);
    var report := ReportOf(before, raw, c, marked, after);
    FieldReportInOrder(before, after, ids);
    RelocationReportInOrder(before, after, ids);
    forall r: FieldRepair
      ensures r in report.fields <==>
              r.id in before.objects && r.id in after.objects &&
              Differs(before.objects[r.id], after.objects[r.id], r.field)
    {
      FieldReportExactly(before, after, ids, r);
    }
    forall r: Relocation
      ensures r in report.relocations <==>
              r.id in before.objects && r.id in after.objects && Relocates(before, after, r)
    {
      RelocationReportExactly(before, after, ids, r);
    }
    forall id: nat
      ensures Increasing(report.listChanges)
      ensures id in report.listChanges <==> id in report.links && !(id in raw && raw[id] == report.links[id])
      ensures id in report.unreachable <==>
              id in after.objects && after.objects[id].kind.Room? && Floating !in after.objects[id].flags &&
              !Reachability.Connected(after, c.startingRoom, id)
    {
      ListReportExactly(raw, Rebuilt(after, raw), id);
      UnreachableExactly(after, c, id);
    }
  }

  // ----- The whole plan

  /** One object ends as its claims, endpoints and references decide. */
  ghost predicate ObjectOutcome(before: World, raw: Links, c: Config, marked: World, after: World, id: nat) {
    id in before.objects && id in marked.objects && id in after.objects &&
    MarkedFrom(before, raw, c, id, marked.objects[id]) &&
    EndsAs(before, c, id, marked.objects[id], Live(marked), after.objects[id])
  }

  lemma ObjectOutcomeExactly(before: World, raw: Links, c: Config, id: nat)
    requires Repaired(before, raw, c).Ok? && id in before.objects
    ensures ObjectOutcome(before, raw, c, Marked(before, raw, c), Repaired(before, raw, c).value, id)
  {
    MarkedExactly(before, raw, c, id);
    RepairedExactly(before, raw, c, id);
  }

  /** And the report says exactly what changed. */
  ghost predicate Outcome(before: World, raw: Links, c: Config, marked: World, after: World, report: Report) {
    after.objects.Keys == before.objects.Keys == marked.objects.Keys &&
    (forall id :: id in before.objects ==> ObjectOutcome(before, raw, c, marked, after, id)) &&
    DirectoryKept(before, after, report.purges, Live(marked)) &&
    report.purges == Purges(marked) && Reports(before, raw, c, after, report)
  }

  lemma OutcomeReported(before: World, raw: Links, c: Config, marked: World, after: World)
    requires after.objects.Keys == before.objects.Keys == marked.objects.Keys
    requires forall id :: id in before.objects ==> ObjectOutcome(before, raw, c, marked, after, id)
    requires DirectoryKept(before, after, Purges(marked), Live(marked))
    ensures Outcome(before, raw, c, marked, after, ReportOf(before, raw, c, marked, after))
  {
    forall id | id in before.objects
      ensures marked.objects[id].kind == before.objects[id].kind
    {
      assert ObjectOutcome(before, raw, c, marked, after, id);
    }
    ReportExactly(before, raw, c, marked, after);
  }

  lemma ConcludedReport(before: World, raw: Links, c: Config, host: Host, marked: World, after: World)
    requires after.objects.Keys == before.objects.Keys && Concluded(before, raw, c, host, marked, after).Ok?
    ensures Concluded(before, raw, c, host, marked, after).value == (after, ReportOf(before, raw, c, marked, after))
  {
  }

  lemma PlannedIsConcluded(before: World, raw: Links, c: Config, host: Host)
    requires Planned(before, raw, c, host).Ok?
    ensures Repaired(before, raw, c).Ok?
    ensures var after := Repaired(before, raw, c).value;
            Planned(before, raw, c, host) == Concluded(before, raw, c, host, Marked(before, raw, c), after)
  {
  }

  lemma RepairedOutcome(before: World, raw: Links, c: Config)
    requires Repaired(before, raw, c).Ok?
    ensures var marked, after := Marked(before, raw, c), Repaired(before, raw, c).value;
            Outcome(before, raw, c, marked, after, ReportOf(before, raw, c, marked, after))
  {
    var marked, after := Marked(before, raw, c), Repaired(before, raw, c).value;
    forall id | id in before.objects
      ensures ObjectOutcome(before, raw, c, marked, after, id)
    {
      ObjectOutcomeExactly(before, raw, c, id);
    }
    DirectoryExactly(before, raw, c);
    MarkedKeepsKeys(before, raw, c);
    OutcomeReported(before, raw, c, marked, after);
  }

  lemma MarkedKeepsKeys(before: World, raw: Links, c: Config)
    ensures Marked(before, raw, c).objects.Keys == before.objects.Keys
  {
  }

  /**
   * A successful plan: every object ends as its claims, endpoints and references decide, the
   * directory keeps exactly the live, and the report is exactly what changed.
   */
  lemma PlanExactly(before: World, raw: Links, c: Config, host: Host)
    requires Planned(before, raw, c, host).Ok?
    ensures var (after, report) := Planned(before, raw, c, host).value;
            Outcome(before, raw, c, Marked(before, raw, c), after, report)
  {
    PlannedIsConcluded(before, raw, c, host);
    ConcludedReport(before, raw, c, host, Marked(before, raw, c), Repaired(before, raw, c).value);
    RepairedOutcome(before, raw, c);
  }

  /** What must hold before repair begins, in the order it is checked. */
  lemma FoundationExactly(before: World, c: Config, host: Host)
    ensures var god := 1 in before.objects && before.objects[1].kind.Player?;
            var kept := forall id: nat :: id in {0, 1, c.startingRoom, c.startingHome, c.defaultHome} ==>
                          id in before.objects && !before.objects[id].kind.Garbage?;
            Foundation(before, c, host) ==
            if !host.accounts(before) then Err(AccountsInvalid)
            else if !god then Err(GodMissing)
            else if !kept then Err(ProtectedUnavailable) else Ok(())
  {
    forall id: nat
      ensures id in Protected(c) <==> id in {0, 1, c.startingRoom, c.startingHome, c.defaultHome}
    {
    }
  }
}
