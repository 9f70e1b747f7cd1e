/** Artillery flights and their map-owned queue, over every run of launches and seconds. */
module Artillery {
  import opened Prelude

  datatype Hex = Hex(x: int, y: int)

  datatype Mode = Standard | Cluster | Smoke | Mine | Homing

  datatype Outcome = Hit | Scatter(hexes: nat) | DirectMiss

  /** Launch facts and the seconds still to fly. */
  datatype Flight = Flight(origin: Hex, target: Hex, weapon: nat, mode: Mode, outcome: Outcome, remaining: nat)

  datatype Shot = Shot(shooter: int, flight: Flight)

  /** Catalogue facts and map geometry that launches read. */
  datatype Rules = Rules(range: (Hex, Hex) -> real, artillery: nat -> bool, supports: (Mode, nat) -> bool)

  const MAXIMUM_SCATTER := 2000
  const MAXIMUM_SHOTS := 4096
  const U16_MAX := 0xFFFF
  const U32_MAX := 0xFFFF_FFFF

  // ----- Flights

  predicate OnLargestMap(h: Hex) { 0 <= h.x < 1000 && 0 <= h.y < 1000 }

  /** A fifth of the range in seconds, truncated and saturated to sixteen bits, and never under ten. */
  function FlightSeconds(range: real): (r: nat)
    ensures 10 <= r <= U16_MAX
  {
    var seconds := (range / 5.0).Floor;
    Max(10, Smaller(seconds, U16_MAX))
  }

  /** The whole seconds that five hexes each fit into the range, up to sixteen bits, and at least ten. */
  lemma FlightSecondsExactly(range: real)
    requires range >= 0.0
    ensures var n := FlightSeconds(range);
            (n == 10 || 5.0 * n as real <= range) && (n == 0xFFFF || range < 5.0 * (n + 1) as real)
  {
  }

  function NewFlight(
    rules: Rules, origin: Hex, target: Hex, weapon: nat, mode: Mode, outcome: Outcome): Option<Flight>
  {
    if OnLargestMap(origin) && OnLargestMap(target) && rules.artillery(weapon) && rules.supports(mode, weapon) &&
       (outcome.Scatter? ==> outcome.hexes <= MAXIMUM_SCATTER)
    then Some(Flight(origin, target, weapon, mode, outcome, FlightSeconds(rules.range(origin, target))))
    else None
  }

  /** A saved flight: the launch its facts describe, with the saved countdown, if that launch could reach it. */
  function FromSaved(rules: Rules, saved: Flight): Option<Flight> {
    match NewFlight(rules, saved.origin, saved.target, saved.weapon, saved.mode, saved.outcome)
    case None => None
    case Some(launch) =>
      if saved.remaining <= launch.remaining then Some(launch.(remaining := saved.remaining)) else None
  }

  /** A flight some launch produced, however many seconds ago. */
  ghost predicate Launched(rules: Rules, f: Flight) {
    exists launch: Flight ::
      NewFlight(rules, launch.origin, launch.target, launch.weapon, launch.mode, launch.outcome) == Some(launch) &&
      f.remaining <= launch.remaining && f == launch.(remaining := f.remaining)
  }

  /** A flight some launch produced, read off its own fields. */
  lemma LaunchedExactly(rules: Rules, f: Flight)
    ensures Launched(rules, f) <==>
            0 <= f.origin.x < 1000 && 0 <= f.origin.y < 1000 && 0 <= f.target.x < 1000 && 0 <= f.target.y < 1000 &&
            rules.artillery(f.weapon) && rules.supports(f.mode, f.weapon) &&
            (f.outcome.Scatter? ==> f.outcome.hexes <= 2000) &&
            f.remaining <= FlightSeconds(rules.range(f.origin, f.target))
  {
    var launch := NewFlight(rules, f.origin, f.target, f.weapon, f.mode, f.outcome);
    if launch.Some? && f.remaining <= launch.value.remaining {
      assert f == launch.value.(remaining := f.remaining);
    }
  }

  /** Saving and reloading restores exactly the flights a launch can have produced. */
  lemma ReloadRestoresIff(rules: Rules, f: Flight)
    ensures FromSaved(rules, f) == Some(f) <==> Launched(rules, f)
    ensures FromSaved(rules, f).Some? ==> FromSaved(rules, f).value == f
  {
    if FromSaved(rules, f).Some? {
      var launch := NewFlight(rules, f.origin, f.target, f.weapon, f.mode, f.outcome).value;
      assert f == launch.(remaining := f.remaining);
    }
  }

  predicate Contains(width: int, height: int, h: Hex) { 0 <= h.x < width && 0 <= h.y < height }

  /** Arrival randomness: how the dice stand after resolving a flight, or a failure. */
  type Impact = (Flight, nat) -> Option<nat>

  datatype Field = Field(width: int, height: int)

  /** One second of flight: the dice move only on arrival, and a failure changes nothing. */
  function Advance(field: Field, impact: Impact, f: Flight, dice: nat): Option<(Flight, nat)> {
    if f.remaining == 0 || !(1 <= field.width <= 1000 && 1 <= field.height <= 1000) ||
       !Contains(field.width, field.height, f.target) then None
    else if f.remaining > 1 then Some((f.(remaining := f.remaining - 1), dice))
    else
      match impact(f, dice)
      case None => None
      case Some(rolled) => Some((f.(remaining := 0), rolled))
  }

  // ----- One second of the whole queue

  type Queue = map<nat, Shot>

  function Seconds(q: Queue, ordinal: nat): nat
    requires ordinal in q
  {
    q[ordinal].flight.remaining
  }

  function Landing(q: Queue): set<nat> { set o | o in q && Seconds(q, o) == 1 }

  function Flown(s: Shot): Shot { s.(flight := s.flight.(remaining := Max(0, s.flight.remaining - 1))) }

  /** Shots that landed are gone; every other is one second closer. */
  function Ticked(q: Queue): Queue { map o | o in q && Seconds(q, o) != 1 :: Flown(q[o]) }

  /** The dice after the listed shots have each advanced once, or the first failure. */
  function DiceAfter(field: Field, impact: Impact, q: Queue, ordinals: seq<nat>, dice: nat): Option<nat>
    requires forall o :: o in ordinals ==> o in q
  {
    if ordinals == [] then Some(dice) else
      match Advance(field, impact, q[ordinals[0]].flight, dice)
      case None => None
      case Some(flown) => DiceAfter(field, impact, q, ordinals[1..], flown.1)
  }

  /** A flight that a second can advance or land. */
  predicate Flying(field: Field, f: Flight) {
    f.remaining > 0 && 1 <= field.width <= 1000 && 1 <= field.height <= 1000 &&
    Contains(field.width, field.height, f.target)
  }

  /** The dice after resolving flights that all land, in order. */
  function Rolled(impact: Impact, flights: seq<Flight>, dice: nat): Option<nat> {
    if flights == [] then Some(dice) else
      match impact(flights[0], dice)
      case None => None
      case Some(rolled) => Rolled(impact, flights[1..], rolled)
  }

  function Flights(q: Queue, ordinals: seq<nat>): (r: seq<Flight>)
    requires forall o :: o in ordinals ==> o in q
    ensures |r| == |ordinals| && forall i :: 0 <= i < |r| ==> r[i] == q[ordinals[i]].flight
  {
    if ordinals == [] then [] else [q[ordinals[0]].flight] + Flights(q, ordinals[1..])
  }

  ghost predicate AllFly(field: Field, q: Queue, ordinals: seq<nat>)
    requires forall o :: o in ordinals ==> o in q
  {
    forall o :: o in ordinals ==> Flying(field, q[o].flight)
  }

  lemma KeptStep(q: Queue, ordinals: seq<nat>)
    requires ordinals != [] && forall o :: o in ordinals ==> o in q
    ensures var landing, later := Flights(q, Kept(Landing(q), ordinals)), Flights(q, Kept(Landing(q), ordinals[1..]));
            if ordinals[0] in Landing(q) then landing == [q[ordinals[0]].flight] + later else landing == later
  {
    var landing, later := Kept(Landing(q), ordinals), Kept(Landing(q), ordinals[1..]);
    assert landing == (if ordinals[0] in Landing(q) then [ordinals[0]] else []) + later;
  }

  /** Of the listed shots only those landing touch the dice; one that cannot fly fails them all. */
  lemma {:induction false} OnlyLandingsRoll(field: Field, impact: Impact, q: Queue, ordinals: seq<nat>, dice: nat)
    requires forall o :: o in ordinals ==> o in q
    ensures DiceAfter(field, impact, q, ordinals, dice) ==
            if AllFly(field, q, ordinals) then Rolled(impact, Flights(q, Kept(Landing(q), ordinals)), dice) else None
  {
    if ordinals != [] {
      var o, rest := ordinals[0], ordinals[1..];
      assert ordinals == [o] + rest;
      assert AllFly(field, q, ordinals) <==> Flying(field, q[o].flight) && AllFly(field, q, rest);
      KeptStep(q, ordinals);
      var flown := Advance(field, impact, q[o].flight, dice);
      if flown.Some? {
        OnlyLandingsRoll(field, impact, q, rest, flown.value.1);
      }
    }
  }

  /** A second succeeds exactly when every shot can fly and every landing resolves, in launch order. */
  lemma SecondRollsLandings(field: Field, impact: Impact, q: Queue, dice: nat)
    ensures DiceAfter(field, impact, q, Ascending(q.Keys), dice) ==
            if forall o :: o in q ==> Flying(field, q[o].flight)
            then Rolled(impact, Flights(q, Ascending(Landing(q))), dice) else None
  {
    OnlyLandingsRoll(field, impact, q, Ascending(q.Keys), dice);
    FilterAscending(q.Keys, Landing(q));
    assert forall o :: o in q <==> o in Ascending(q.Keys);
  }

  datatype QueueError =
    | ShooterUnavailable
    | MapUnavailable
    | ShooterNotPlaced
    | PositionMismatch
    | TerrainUnavailable
    | TooManyShots
    | SequenceExhausted
    | InvalidShot
    | ArrivalFailed

  predicate ValidShot(field: Field, s: Shot) {
    s.shooter >= 0 && s.flight.remaining > 0 && Contains(field.width, field.height, s.flight.origin) &&
    Contains(field.width, field.height, s.flight.target)
  }

  predicate ValidQueue(field: Field, q: Queue) {
    |q| <= MAXIMUM_SHOTS && forall o :: o in q ==> ValidShot(field, q[o])
  }

  lemma GreatestExists(s: set<nat>)
    requires s != {}
    ensures exists m :: m in s && forall x :: x in s ==> x <= m
  {
    var x :| x in s;
    if s != {x} {
      GreatestExists(s - {x});
      var m :| m in s - {x} && forall y :: y in s - {x} ==> y <= m;
      assert forall y :: y in s ==> y == x || y in s - {x};
      assert Max(x, m) in s && forall y :: y in s ==> y <= Max(x, m);
    }
  }

  function Greatest(s: set<nat>): (m: nat)
    requires s != {}
    ensures m in s && forall x :: x in s ==> x <= m
  {
    GreatestExists(s);
    var m :| m in s && forall x :: x in s ==> x <= m;
    m
  }

  /** One past the last pending ordinal; an empty queue starts again at zero. */
  function NextOrdinal(q: Queue): (r: Option<nat>)
    ensures r.Some? ==> forall o :: o in q ==> o < r.value
    ensures r.Some? ==> if q.Keys == {} then r.value == 0 else r.value > 0 && r.value - 1 in q
    ensures r.None? <==> exists o :: o in q && o >= U32_MAX
  {
    if q.Keys == {} then Some(0)
    else if Greatest(q.Keys) < U32_MAX then Some(Greatest(q.Keys) + 1) else None
  }

  function Enqueued(field: Field, q: Queue, s: Shot): Result<(Queue, nat), QueueError> {
    if |q| >= MAXIMUM_SHOTS then Err(TooManyShots)
    else if NextOrdinal(q).None? then Err(SequenceExhausted)
    else if !ValidQueue(field, q[NextOrdinal(q).value := s]) then Err(InvalidShot)
    else Ok((q[NextOrdinal(q).value := s], NextOrdinal(q).value))
  }

  /** From a valid queue a launch is accepted exactly when there is room, an ordinal left and a valid shot. */
  lemma EnqueueExactly(field: Field, q: Queue, s: Shot)
    requires ValidQueue(field, q)
    ensures Enqueued(field, q, s).Ok? <==>
            |q| < 4096 && (forall o :: o in q ==> o < 0xFFFF_FFFF) && ValidShot(field, s)
    ensures Enqueued(field, q, s).Ok? ==>
              var (queue, o) := Enqueued(field, q, s).value;
              o !in q && queue == q[o := s] && ValidQueue(field, queue)
  {
    var next := NextOrdinal(q);
    if next.Some? && ValidShot(field, s) && |q| < MAXIMUM_SHOTS {
      assert |q[next.value := s]| == |q| + 1 by {
        assert q[next.value := s].Keys == q.Keys + {next.value};
        assert |q[next.value := s]| == |q[next.value := s].Keys| && |q| == |q.Keys|;
      }
    }
    if next.Some? {
      assert next.value in q[next.value := s] && q[next.value := s][next.value] == s;
    }
  }

  /** What a launch reads outside the queue: the shooter's object and unit, and the map's object and record. */
  datatype Site = Site(
    shooterLive: bool, unit: bool, position: Option<(int, Hex)>, mapLive: bool, mapValid: bool, terrain: bool)

  /** The first check a launch onto map `at` fails before the queue is looked at. */
  function Refused(site: Site, at: int, s: Shot): Option<QueueError> {
    if !site.shooterLive then Some(ShooterUnavailable)
    else if !site.mapLive then Some(MapUnavailable)
    else if !site.unit then Some(ShooterUnavailable)
    else if site.position.None? then Some(ShooterNotPlaced)
    else if site.position.value != (at, s.flight.origin) then Some(PositionMismatch)
    else if !site.mapValid then Some(MapUnavailable)
    else if !site.terrain then Some(TerrainUnavailable)
    else None
  }

  /** A launch gets as far as the queue exactly from a live placed shooter on its own hex of a ready map. */
  lemma RefusedExactly(site: Site, at: int, s: Shot)
    ensures Refused(site, at, s).None? <==>
            site.shooterLive && site.unit && site.mapLive && site.mapValid && site.terrain &&
            site.position == Some((at, s.flight.origin))
  {
  }

  class StoredMap {
    const id: int
    const field: Field
    var shots: Queue
    var dice: nat

    constructor (at: int, f: Field, seed: nat)
      ensures id == at && field == f && shots == map[] && dice == seed
    {
      id, field, shots, dice := at, f, map[], seed;
    }

    /** Queue a launch under the next ordinal, or report the first check it fails and queue nothing. */
    method Enqueue(site: Site, s: Shot) returns (r: Result<nat, QueueError>)
      modifies this`shots
      ensures var spec := Enqueued(field, old(shots), s);
              var refused := Refused(site, id, s);
              if refused.None? && spec.Ok? then r == Ok(spec.value.1) && shots == spec.value.0
              else r == Err(if refused.Some? then refused.value else spec.error) && shots == old(shots)
    {
      if !site.shooterLive {
        return Err(ShooterUnavailable);
      }
      if !site.mapLive {
        return Err(MapUnavailable);
      }
      if !site.unit {
        return Err(ShooterUnavailable);
      }
      if site.position.None? {
        return Err(ShooterNotPlaced);
      }
      if site.position.value.0 != id || site.position.value.1 != s.flight.origin {
        return Err(PositionMismatch);
      }
      if !site.mapValid {
        return Err(MapUnavailable);
      }
      if !site.terrain {
        return Err(TerrainUnavailable);
      }
      if |shots| >= MAXIMUM_SHOTS {
        return Err(TooManyShots);
      }
      var ordinal := NextOrdinal(shots);
      if ordinal.None? {
        return Err(SequenceExhausted);
      }
      var before := shots;
      shots := shots[ordinal.value := s];
      if !ValidQueue(field, shots) {
        shots := before;
        return Err(InvalidShot);
      }
      return Ok(ordinal.value);
    }

    /** One second for every queued shot; success publishes the landings, failure leaves queue and dice alone. */
    method AdvanceQueue(impact: Impact) returns (r: Result<seq<nat>, QueueError>)
      modifies this
      ensures var q := old(shots);
              var rolled := DiceAfter(field, impact, q, Ascending(q.Keys), old(dice));
              if rolled.Some? then r == Ok(Ascending(Landing(q))) && shots == Ticked(q) && dice == rolled.value
              else r == Err(ArrivalFailed) && shots == q && dice == old(dice)
    {
      var second := AdvanceShots(field, impact, shots, dice);
      if second.None? {
        return Err(ArrivalFailed);
      }
      var landed;
      shots, dice, landed := second.value.0, second.value.1, second.value.2;
      return Ok(landed);
    }
  }

  function Kept(landing: set<nat>, s: seq<nat>): (r: seq<nat>)
    ensures forall o: nat :: o in r <==> o in s && o in landing
  {
    Filter((o: nat) => o in landing, s)
  }

  lemma KeptIncreasing(landing: set<nat>, s: seq<nat>)
    requires Increasing(s)
    ensures Increasing(Kept(landing, s))
  {
    FilterIncreasing((o: nat) => o in landing, s);
  }

  lemma KeptGrows(landing: set<nat>, s: seq<nat>, k: nat)
    requires k < |s|
    ensures Kept(landing, s[..k + 1]) == Kept(landing, s[..k]) + if s[k] in landing then [s[k]] else []
  {
    assert s[..k + 1] == s[..k] + [s[k]];
    FilterAppend((o: nat) => o in landing, s[..k], [s[k]]);
  }

  lemma DiceStep(field: Field, impact: Impact, q: Queue, ordinals: seq<nat>, k: nat, dice: nat)
    requires (forall o :: o in ordinals ==> o in q) && k < |ordinals|
    ensures var flown := Advance(field, impact, q[ordinals[k]].flight, dice);
            DiceAfter(field, impact, q, ordinals[k..], dice) ==
            if flown.None? then None else DiceAfter(field, impact, q, ordinals[k + 1..], flown.value.1)
  {
    assert ordinals[k..][0] == ordinals[k] && ordinals[k..][1..] == ordinals[k + 1..];
  }

  /** One shot's second: it lands and leaves the queue, or its new countdown is stored. */
  method AdvanceShot(field: Field, impact: Impact, before: Queue, now: Queue, ghost done: set<nat>, o: nat, dice: nat)
    returns (r: Option<(Queue, nat, bool)>)
    requires Advanced(before, now, done) && o in before && o !in done
    ensures var flown := Advance(field, impact, before[o].flight, dice);
            (r.None? <==> flown.None?) &&
            (r.Some? ==> Advanced(before, r.value.0, done + {o}) && r.value.1 == flown.value.1 &&
                         (r.value.2 <==> o in Landing(before)))
  {
    AdvancedOne(before, now, done, o);
    var flown := Advance(field, impact, before[o].flight, dice);
    if flown.None? {
      return None;
    }
    var landed := flown.value.0.remaining == 0;
    var shots := if landed then now - {o} else now[o := now[o].(flight := flown.value.0)];
    return Some((shots, flown.value.1, landed));
  }

  method AdvanceShots(field: Field, impact: Impact, before: Queue, rolls: nat)
    returns (r: Option<(Queue, nat, seq<nat>)>)
    ensures var rolled := DiceAfter(field, impact, before, Ascending(before.Keys), rolls);
            r == if rolled.Some? then Some((Ticked(before), rolled.value, Ascending(Landing(before)))) else None
  {
    var shots, dice, landed: seq<nat> := before, rolls, [];
    var snapshot := Ascending(before.Keys);
    AscendingElements(before.Keys);
    ghost var done: set<nat> := {};
    for k := 0 to |snapshot|
      invariant done == Elements(snapshot[..k]) && Advanced(before, shots, done)
      invariant landed == Kept(Landing(before), snapshot[..k])
      invariant DiceAfter(field, impact, before, snapshot, rolls) ==
                DiceAfter(field, impact, before, snapshot[k..], dice)
    {
      AscendingPrefix(before.Keys, k);
      KeptGrows(Landing(before), snapshot, k);
      DiceStep(field, impact, before, snapshot, k, dice);
      var flown := AdvanceShot(field, impact, before, shots, done, snapshot[k], dice);
      if flown.None? {
        return None;
      }
      shots, dice := flown.value.0, flown.value.1;
      landed := if flown.value.2 then landed + [snapshot[k]] else landed;
      done := done + {snapshot[k]};
    }
    AdvancedAll(before, shots, done);
    FilterAscending(before.Keys, Landing(before));
    return Some((shots, dice, landed));
  }

  /** The shots in `done` have had their second; the rest have not. */
  ghost predicate Advanced(start: Queue, now: Queue, done: set<nat>) {
    (forall o :: o in now <==> o in start && !(o in done && Seconds(start, o) == 1)) &&
    forall o :: o in now ==> now[o] == if o in done then Flown(start[o]) else start[o]
  }

  lemma AdvancedOne(start: Queue, now: Queue, done: set<nat>, o: nat)
    requires Advanced(start, now, done) && o in start && o !in done
    ensures o in now && now[o] == start[o]
    ensures Seconds(start, o) == 1 ==> Advanced(start, now - {o}, done + {o})
    ensures Seconds(start, o) != 1 ==> Advanced(start, now[o := Flown(start[o])], done + {o})
  {
  }

  lemma AdvancedAll(start: Queue, now: Queue, done: set<nat>)
    requires Advanced(start, now, done) && start.Keys <= done
    ensures now == Ticked(start)
  {
  }

  /** Filtering an ascending listing lists the kept members in order. */
  lemma FilterAscending(s: set<nat>, kept: set<nat>)
    requires kept <= s
    ensures Kept(kept, Ascending(s)) == Ascending(kept)
  {
    var all, some := Ascending(s), Ascending(kept);
    KeptIncreasing(kept, all);
    var r := Kept(kept, all);
    assert forall x: nat :: x in r <==> x in some;
    IncreasingUnique(r, some);
  }
}
