/** Building integrity under hits, entries, repair seconds, configuration and reloads. */
module BuildingRepair {
  import opened Prelude

  datatype Building = Building(integrity: int, maximum: int, regeneration: int, repair: Option<nat>)

  const DELAY := 120

  /** The interval a structure standing below its maximum is given; none for a whole one or a ruin. */
  function RepairDelay(integrity: int, maximum: int): Option<nat> {
    if 0 < integrity < maximum then Some(DELAY) else None
  }

  /** Integrity drops to `left`; a structure damaged for the first time starts its timer. */
  function Reduced(b: Building, left: int): Building {
    b.(integrity := left,
       repair := if left > 0 && b.integrity == b.maximum then RepairDelay(left, b.maximum) else b.repair)
  }

  /** A weapon packet; immune and ruined structures take none of it. */
  function Struck(b: Building, damage: nat, immune: bool): Building {
    if damage == 0 || immune || b.integrity == 0 then b
    else Reduced(b, b.integrity - Smaller(damage, b.integrity))
  }

  /** A unit entering costs one point for each ten tons begun. */
  function Entered(b: Building, tons: nat): Building {
    if b.maximum == 0 then b else Reduced(b, Max(0, b.integrity - (tons + 9) / 10))
  }

  /** One second of a repair countdown. */
  function Ticked(b: Building): Building {
    if b.repair.None? then b
    else if b.repair.value > 1 then b.(repair := Some(b.repair.value - 1))
    else if b.integrity == 0 then b.(repair := None)
    else
      var repaired := Clamp(b.integrity + b.regeneration, 0, b.maximum);
      b.(integrity := repaired, repair := RepairDelay(repaired, b.maximum))
  }

  const I16_MAX := 0x7FFF
  const I32_MIN := -0x8000_0000
  const I32_MAX := 0x7FFF_FFFF

  predicate ValidState(integrity: int, maximum: int, regeneration: int) {
    0 <= integrity <= maximum <= I16_MAX && I32_MIN <= regeneration <= I32_MAX
  }

  /** An administrator's edit: refused out of bounds, and never touching the timer. */
  function Configured(b: Building, integrity: int, maximum: int, regeneration: int): Building {
    if ValidState(integrity, maximum, regeneration)
    then b.(integrity := integrity, maximum := maximum, regeneration := regeneration) else b
  }

  /** Loading a saved map: an interior some entrance leads to is given the timer it lacks. */
  function Reloaded(b: Building, referenced: bool): Building {
    if referenced && b.repair.None? then b.(repair := RepairDelay(b.integrity, b.maximum)) else b
  }

  class Interior {
    var building: Building

    constructor (b: Building)
      ensures building == b
    {
      building := b;
    }

    method Hit(damage: nat, immune: bool)
      modifies this
      ensures building == Struck(old(building), damage, immune)
    {
      if damage == 0 || immune || building.integrity == 0 {
        return;
      }
      var before := building.integrity;
      var remaining := before - Smaller(damage, before);
      building := building.(integrity := remaining);
      if remaining > 0 && before == building.maximum {
        building := building.(repair := RepairDelay(building.integrity, building.maximum));
      }
    }

    method Enter(tons: nat)
      modifies this
      ensures building == Entered(old(building), tons)
    {
      if building.maximum == 0 {
        return;
      }
      var before := building.integrity;
      building := building.(integrity := Max(0, before - (tons + 9) / 10));
      if building.integrity > 0 && before == building.maximum {
        building := building.(repair := RepairDelay(building.integrity, building.maximum));
      }
    }

    method Tick()
      modifies this
      ensures building == Ticked(old(building))
    {
      if building.repair.None? {
        return;
      }
      if building.repair.value > 1 {
        building := building.(repair := Some(building.repair.value - 1));
        return;
      }
      building := building.(repair := None);
      if building.integrity == 0 {
        return;
      }
      building := building.(integrity := Clamp(building.integrity + building.regeneration, 0, building.maximum));
      building := building.(repair := RepairDelay(building.integrity, building.maximum));
    }

    method Configure(integrity: int, maximum: int, regeneration: int) returns (ok: bool)
      modifies this
      ensures ok <==> 0 <= integrity <= maximum <= 0x7FFF && -0x8000_0000 <= regeneration <= 0x7FFF_FFFF
      ensures building == Configured(old(building), integrity, maximum, regeneration)
      ensures building == if ok then Building(integrity, maximum, regeneration, old(building).repair) else old(building)
    {
      ok := ValidState(integrity, maximum, regeneration);
      if ok {
        building := Building(integrity, maximum, regeneration, building.repair);
      }
    }

    method Reload(referenced: bool)
      modifies this
      ensures building == Reloaded(old(building), referenced)
      ensures var b := old(building);
              building == b.(repair := if referenced && b.repair.None? && 0 < b.integrity < b.maximum then Some(120)
                                       else b.repair)
    {
      if referenced && building.repair.None? {
        building := building.(repair := RepairDelay(building.integrity, building.maximum));
      }
    }
  }

  // ----- Every mix of damage, time, configuration and reloads

  datatype Event =
    | Hit(damage: nat, immune: bool)
    | Enter(tons: nat)
    | Second
    | Configure(integrity: int, maximum: int, regeneration: int)
    | Reload(referenced: bool)

  function Step(b: Building, e: Event): Building {
    match e
    case Hit(damage, immune) => Struck(b, damage, immune)
    case Enter(tons) => Entered(b, tons)
    case Second => Ticked(b)
    case Configure(integrity, maximum, regeneration) => Configured(b, integrity, maximum, regeneration)
    case Reload(referenced) => Reloaded(b, referenced)
  }

  function After(b: Building, events: seq<Event>): Building {
    if events == [] then b else Step(After(b, events[..|events| - 1]), events[|events| - 1])
  }

  ghost predicate Unconfigured(events: seq<Event>) { forall e :: e in events ==> !e.Configure? }

  predicate InBounds(b: Building) { 0 <= b.integrity <= b.maximum }

  predicate Damaged(b: Building) { 0 < b.integrity < b.maximum }

  predicate Sound(b: Building) { InBounds(b) && (b.repair.Some? ==> 1 <= b.repair.value <= DELAY) }

  /** A timer runs whenever the structure stands damaged. */
  predicate Covered(b: Building) { Sound(b) && (Damaged(b) ==> b.repair.Some?) }

  /** And only then, or while a ruin waits out its last interval. */
  predicate Scheduled(b: Building) { Covered(b) && (b.repair.Some? ==> b.integrity < b.maximum) }

  /** Nothing, not even configuration, takes integrity or a timer out of bounds. */
  lemma {:induction false} EveryRunIsSound(b: Building, events: seq<Event>)
    requires Sound(b)
    ensures Sound(After(b, events))
  {
    if events != [] {
      EveryRunIsSound(b, events[..|events| - 1]);
    }
  }

  /** Without configuration the timer discipline holds over every run, and ruins stay ruins. */
  lemma {:induction false} EveryRunKeepsSchedule(b: Building, events: seq<Event>)
    requires Covered(b) && Unconfigured(events)
    ensures var a := After(b, events);
            Covered(a) && (Scheduled(b) ==> Scheduled(a)) && a.maximum == b.maximum &&
            a.regeneration == b.regeneration && (b.integrity == 0 ==> a.integrity == 0)
  {
    if events != [] {
      EveryRunKeepsSchedule(b, events[..|events| - 1]);
    }
  }

  lemma {:induction false} AfterConcat(b: Building, first: seq<Event>, second: seq<Event>)
    ensures After(b, first + second) == After(After(b, first), second)
  {
    if second == [] {
      assert first + second == first;
    } else {
      assert (first + second)[..|first + second| - 1] == first + second[..|second| - 1];
      AfterConcat(b, first, second[..|second| - 1]);
    }
  }

  /** Whatever came before, a reload of a referenced interior covers it until the next configuration. */
  lemma ReloadCovers(b: Building, first: seq<Event>, second: seq<Event>)
    requires Sound(b) && Unconfigured(second)
    ensures Covered(After(b, first + [Reload(true)] + second))
  {
    var loaded := first + [Reload(true)];
    EveryRunIsSound(b, first);
    assert loaded[..|loaded| - 1] == first;
    EveryRunKeepsSchedule(After(b, loaded), second);
    AfterConcat(b, loaded, second);
  }

  // ----- What damage does, timed or not

  /** A hit takes its whole damage down to zero; only damage that a whole structure survives starts a timer. */
  lemma HitTakes(b: Building, damage: nat, immune: bool)
    requires InBounds(b)
    ensures var left := if immune then b.integrity else Max(0, b.integrity - damage);
            var starts := b.integrity == b.maximum && 0 < left < b.maximum;
            Struck(b, damage, immune) == b.(integrity := left, repair := if starts then Some(120) else b.repair)
  {
  }

  /** An entry takes a point for each ten tons begun, by the same rule. */
  lemma EntryTakes(b: Building, tons: nat)
    requires InBounds(b)
    ensures var left := Max(0, b.integrity - (tons + 9) / 10);
            Entered(b, tons) ==
            b.(integrity := left,
               repair := if !(b.integrity == b.maximum && left > 0) then b.repair
                         else if left < b.maximum then Some(120) else None)
  {
  }

  /** Total damage of a run. */
  function Loss(events: seq<Event>): nat {
    if events == [] then 0 else
      Loss(events[..|events| - 1]) +
      match events[|events| - 1]
      case Hit(damage, immune) => if immune then 0 else damage
      case Enter(tons) => (tons + 9) / 10
      case _ => 0
  }

  function SecondsIn(events: seq<Event>): nat {
    if events == [] then 0
    else SecondsIn(events[..|events| - 1]) + if events[|events| - 1].Second? then 1 else 0
  }

  /**
   * Between two repairs: until a running timer ends, integrity is the start less every loss,
   * clamped at zero, and the timer counts the seconds, whatever the mix of hits and entries.
   */
  lemma {:induction false} TimedWear(b: Building, events: seq<Event>)
    requires InBounds(b) && b.integrity < b.maximum && b.repair.Some? && Unconfigured(events)
    requires SecondsIn(events) < b.repair.value
    ensures After(b, events) == b.(integrity := Max(0, b.integrity - Loss(events)),
                                   repair := Some(b.repair.value - SecondsIn(events)))
  {
    if events != [] {
      TimedWear(b, events[..|events| - 1]);
    }
  }

  // ----- Structures configured as damaged

  /** A run during which no timer is ever started. */
  ghost predicate NeverTimed(b: Building, events: seq<Event>) {
    forall i :: 0 <= i <= |events| ==> After(b, events[..i]).repair.None?
  }

  /** What an event does to the structure itself while no timer runs. */
  function Wear(b: Building, e: Event): Building {
    match e
    case Hit(damage, immune) => b.(integrity := if immune then b.integrity else Max(0, b.integrity - damage))
    case Enter(tons) => b.(integrity := Max(0, b.integrity - (tons + 9) / 10))
    case Configure(integrity, maximum, regeneration) => Configured(b, integrity, maximum, regeneration)
    case _ => b
  }

  function Worn(b: Building, events: seq<Event>): Building {
    if events == [] then b else Wear(Worn(b, events[..|events| - 1]), events[|events| - 1])
  }

  /** A reload while damaged, or damage that a whole structure survives. */
  predicate Starts(b: Building, e: Event) {
    match e
    case Hit(damage, immune) => !immune && 0 < damage < b.integrity == b.maximum
    case Enter(tons) => 0 < tons && (tons + 9) / 10 < b.integrity == b.maximum
    case Reload(referenced) => referenced && Damaged(b)
    case _ => false
  }

  lemma StepStartsIff(b: Building, e: Event)
    requires InBounds(b) && b.repair.None?
    ensures Step(b, e).repair.Some? <==> Starts(b, e)
    ensures !Starts(b, e) ==> Step(b, e) == Wear(b, e)
    ensures InBounds(Wear(b, e)) && Wear(b, e).repair.None?
  {
  }

  lemma NeverTimedGrows(b: Building, events: seq<Event>)
    requires events != []
    ensures NeverTimed(b, events) <==> NeverTimed(b, events[..|events| - 1]) && After(b, events).repair.None?
  {
    var before := events[..|events| - 1];
    assert events[..|events|] == events;
    assert forall i :: 0 <= i < |events| ==> events[..i] == before[..i];
  }

  lemma WornInBounds(b: Building, events: seq<Event>)
    requires InBounds(b)
    ensures InBounds(Worn(b, events))
  {
  }

  ghost predicate NothingStarts(b: Building, events: seq<Event>) {
    forall i :: 0 <= i < |events| ==> !Starts(Worn(b, events[..i]), events[i])
  }

  lemma NothingStartsGrows(b: Building, events: seq<Event>)
    requires events != []
    ensures var before := events[..|events| - 1];
            NothingStarts(b, events) <==>
            NothingStarts(b, before) && !Starts(Worn(b, before), events[|events| - 1])
  {
    var before := events[..|events| - 1];
    assert forall i :: 0 <= i < |before| ==> events[..i] == before[..i] && events[i] == before[i];
  }

  /**
   * Over every run, a structure without a timer stays without one exactly when, counting damage
   * and configuration alone, no reload finds it damaged and no damage finds it whole.
   */
  lemma {:induction false} NeverTimedIff(b: Building, events: seq<Event>)
    requires InBounds(b) && b.repair.None?
    ensures NeverTimed(b, events) <==> NothingStarts(b, events)
    ensures NeverTimed(b, events) ==> After(b, events) == Worn(b, events)
  {
    if events == [] {
      assert events[..0] == events;
    } else {
      var before := events[..|events| - 1];
      NeverTimedIff(b, before);
      NeverTimedGrows(b, events);
      NothingStartsGrows(b, events);
      WornInBounds(b, before);
      if NeverTimed(b, before) {
        assert before[..|before|] == before;
        StepStartsIff(After(b, before), events[|events| - 1]);
      }
    }
  }

  lemma {:induction false} UnconfiguredWear(b: Building, events: seq<Event>)
    requires InBounds(b) && Unconfigured(events)
    ensures Worn(b, events) == b.(integrity := Max(0, b.integrity - Loss(events)))
  {
    if events != [] {
      UnconfiguredWear(b, events[..|events| - 1]);
    }
  }

  lemma StartsUnconfigured(b: Building, before: seq<Event>, e: Event)
    requires Damaged(b) && Unconfigured(before) && !e.Configure?
    ensures Starts(Worn(b, before), e) <==> e == Reload(true) && Loss(before) < b.integrity
  {
    UnconfiguredWear(b, before);
  }

  /**
   * In particular a structure configured as damaged, and not configured again, loses integrity to
   * every hit and gains none until the first reload that still finds it standing.
   */
  lemma UntimedUntilReloadIff(b: Building, events: seq<Event>)
    requires Damaged(b) && b.repair.None? && Unconfigured(events)
    ensures NeverTimed(b, events) <==>
            forall i :: 0 <= i < |events| ==> events[i] == Reload(true) ==> Loss(events[..i]) >= b.integrity
    ensures NeverTimed(b, events) ==> After(b, events) == b.(integrity := Max(0, b.integrity - Loss(events)))
  {
    NeverTimedIff(b, events);
    UnconfiguredWear(b, events);
    UntimedCondition(b, events);
  }

  lemma UntimedCondition(b: Building, events: seq<Event>)
    requires Damaged(b) && Unconfigured(events)
    ensures NothingStarts(b, events) <==>
            forall i :: 0 <= i < |events| ==> events[i] == Reload(true) ==> Loss(events[..i]) >= b.integrity
  {
    forall i | 0 <= i < |events|
      ensures Starts(Worn(b, events[..i]), events[i]) <==>
              events[i] == Reload(true) && Loss(events[..i]) < b.integrity
    {
      StartsUnconfigured(b, events[..i], events[i]);
    }
  }

  // ----- Time to full repair

  function Seconds(b: Building, n: nat): Building
    decreases n
  {
    if n == 0 then b else Seconds(Ticked(b), n - 1)
  }

  lemma {:induction false} SecondsAdd(b: Building, m: nat, n: nat)
    ensures Seconds(b, m + n) == Seconds(Seconds(b, m), n)
    decreases m
  {
    if m > 0 {
      SecondsAdd(Ticked(b), m - 1, n);
    }
  }

  /** Before the timer runs out nothing but the timer changes. */
  lemma {:induction false} WaitingSeconds(b: Building, n: nat)
    requires b.repair.Some? && n < b.repair.value
    ensures Seconds(b, n) == b.(repair := Some(b.repair.value - n))
    decreases n
  {
    if n > 0 {
      WaitingSeconds(Ticked(b), n - 1);
    }
  }

  function Ceiling(x: nat, y: nat): nat
    requires y > 0
  {
    (x + y - 1) / y
  }

  lemma CeilingStep(x: nat, y: nat)
    requires 0 < y < x
    ensures Ceiling(x, y) == 1 + Ceiling(x - y, y)
  {
    var z := x + y - 1;
    var q, r := z / y, z % y;
    assert z == q * y + r;
    assert z - y == (q - 1) * y + r;
    QuotientIs(z - y, y, q - 1, r);
  }

  lemma {:induction false} MultipleIsLarge(d: nat, y: nat)
    requires d >= 1
    ensures d * y >= y
  {
    if d > 1 {
      MultipleIsLarge(d - 1, y);
      assert d * y == (d - 1) * y + y;
    }
  }

  lemma QuotientIs(z: int, y: nat, q: int, r: int)
    requires y > 0 && z == q * y + r && 0 <= r < y
    ensures z / y == q
  {
    var p, e := z / y, z % y;
    assert z == p * y + e && 0 <= e < y;
    if p > q {
      MultipleIsLarge(p - q, y);
    } else if p < q {
      MultipleIsLarge(q - p, y);
    }
  }

  lemma CeilingIsOne(x: nat, y: nat)
    requires 0 < x <= y
    ensures Ceiling(x, y) == 1
  {
    QuotientIs(x + y - 1, y, 1, x - 1);
  }

  lemma CeilingBound(b: Building)
    requires Damaged(b) && b.repair.Some? && b.regeneration > 0
    ensures Ceiling(b.maximum - b.integrity, b.regeneration) >= 1
  {
    var missing := b.maximum - b.integrity;
    if missing <= b.regeneration {
      CeilingIsOne(missing, b.regeneration);
    } else {
      CeilingStep(missing, b.regeneration);
    }
  }

  /** Seconds until a damaged, scheduled structure is whole. */
  function FullRepair(b: Building): nat
    requires Damaged(b) && b.repair.Some? && b.regeneration > 0
  {
    CeilingBound(b);
    b.repair.value + DELAY * (Ceiling(b.maximum - b.integrity, b.regeneration) - 1)
  }

  /**
   * Undisturbed, a positive factor restores a scheduled structure in exactly
   * timer + 120 * (ceil(missing / factor) - 1) seconds, and not a second sooner.
   */
  lemma {:induction false} FullRepairTakesExactly(b: Building, n: nat)
    requires Scheduled(b) && Damaged(b) && b.regeneration > 0
    ensures n < FullRepair(b) ==> Seconds(b, n).integrity < b.maximum
    ensures n == FullRepair(b) ==> Seconds(b, n) == b.(integrity := b.maximum, repair := None)
    decreases b.maximum - b.integrity
  {
    var t, missing := b.repair.value, b.maximum - b.integrity;
    if n < t {
      WaitingSeconds(b, n);
      CeilingBound(b);
    } else {
      WaitingSeconds(b, t - 1);
      SecondsAdd(b, t - 1, 1);
      SecondsAdd(b, t, n - t);
      var next := Seconds(b, t);
      assert next == Ticked(Seconds(b, t - 1));
      if missing <= b.regeneration {
        CeilingIsOne(missing, b.regeneration);
      } else {
        CeilingStep(missing, b.regeneration);
        CeilingBound(next);
        FullRepairTakesExactly(next, n - t);
      }
    }
  }

  /** How many repairs have fallen due after `n` seconds of a timer of `t`. */
  function Repairs(t: nat, n: nat): nat { if n < t then 0 else 1 + (n - t) / DELAY }

  lemma RepairsRepeat(t: nat, n: nat)
    requires t <= n
    ensures Repairs(t, n) == 1 + Repairs(DELAY, n - t)
  {
    var m := n - t;
    if m >= DELAY {
      QuotientIs(m, DELAY, 1 + (m - DELAY) / DELAY, (m - DELAY) % DELAY);
    }
  }

  /** Once a structure has reached a bound, further repairs of the same sign keep it there. */
  lemma ClampStays(integrity: int, r: int, k: nat, maximum: nat)
    requires 0 < integrity <= maximum && k >= 1 && !(0 < integrity + r < maximum)
    ensures Clamp(integrity + k * r, 0, maximum) == Clamp(integrity + r, 0, maximum)
  {
    if r > 0 {
      MultipleIsLarge(k, r);
    } else {
      MultipleIsLarge(k, -r);
      assert k * -r == -(k * r);
    }
  }

  lemma RepairDue(b: Building, next: Building)
    requires 0 < b.integrity <= b.maximum && b.repair.Some? && b.repair.value >= 1
    requires next == Seconds(b, b.repair.value)
    ensures next.integrity == Clamp(b.integrity + b.regeneration, 0, b.maximum) && next.maximum == b.maximum
    ensures next.regeneration == b.regeneration && next.repair == if Damaged(next) then Some(DELAY) else None
  {
    WaitingSeconds(b, b.repair.value - 1);
    SecondsAdd(b, b.repair.value - 1, 1);
  }

  /**
   * Undisturbed, integrity after any number of seconds: one signed factor for each repair due,
   * clamped between ruin and the maximum.
   */
  lemma {:induction false} IntegrityAfterSeconds(b: Building, n: nat)
    requires 0 < b.integrity <= b.maximum && b.repair.Some? && b.repair.value >= 1
    ensures Seconds(b, n).integrity ==
            Clamp(b.integrity + Repairs(b.repair.value, n) * b.regeneration, 0, b.maximum)
    decreases n
  {
    var t, r := b.repair.value, b.regeneration;
    if n < t {
      WaitingSeconds(b, n);
    } else {
      var next, k := Seconds(b, t), Repairs(DELAY, n - t);
      RepairDue(b, next);
      SecondsAdd(b, t, n - t);
      RepairsRepeat(t, n);
      assert (1 + k) * r == r + k * r;
      if Damaged(next) {
        IntegrityAfterSeconds(next, n - t);
      } else {
        UntimedStandsStill(next, n - t);
        ClampStays(b.integrity, r, 1 + k, b.maximum);
      }
    }
  }

  /** A ruin's last interval runs out and is not renewed. */
  lemma {:induction false} RuinTimerEnds(b: Building, n: nat)
    requires b.integrity == 0 && b.repair.Some? && b.repair.value >= 1
    ensures Seconds(b, n) == b.(repair := if n < b.repair.value then Some(b.repair.value - n) else None)
  {
    var t := b.repair.value;
    if n < t {
      WaitingSeconds(b, n);
    } else {
      WaitingSeconds(b, t - 1);
      SecondsAdd(b, t - 1, n - t + 1);
      UntimedStandsStill(b.(repair := None), n - t);
    }
  }

  /** Without a positive factor a damaged structure is never whole again. */
  lemma {:induction false} NoFactorNoRepair(b: Building, n: nat)
    requires InBounds(b) && b.integrity < b.maximum && b.regeneration <= 0
    ensures Seconds(b, n).integrity < b.maximum
    decreases n
  {
    if n > 0 {
      NoFactorNoRepair(Ticked(b), n - 1);
    }
  }

  lemma {:induction false} UntimedStandsStill(b: Building, n: nat)
    requires b.repair.None?
    ensures Seconds(b, n) == b
    decreases n
  {
    if n > 0 {
      UntimedStandsStill(b, n - 1);
    }
  }

  lemma {:induction false} RuinsStandStill(b: Building, n: nat)
    requires b.integrity == 0
    ensures Seconds(b, n).integrity == 0
    decreases n
  {
    if n > 0 {
      RuinsStandStill(Ticked(b), n - 1);
    }
  }

  /** Left alone, a structure is ever whole exactly when it is now, or a timer and a positive factor restore it. */
  lemma RepairedEventuallyIff(b: Building)
    requires Sound(b)
    ensures (exists n: nat :: Seconds(b, n).integrity == b.maximum) <==>
            b.integrity == b.maximum || (Damaged(b) && b.repair.Some? && b.regeneration > 0)
  {
    if b.integrity == b.maximum {
      assert Seconds(b, 0) == b;
    } else if Damaged(b) && b.repair.Some? && b.regeneration > 0 {
      FullRepairTakesExactly(b, FullRepair(b));
    } else {
      forall n: nat
        ensures Seconds(b, n).integrity != b.maximum
      {
        if b.repair.None? {
          UntimedStandsStill(b, n);
        } else if b.integrity == 0 {
          RuinsStandStill(b, n);
        } else {
          NoFactorNoRepair(b, n);
        }
      }
    }
  }
}
