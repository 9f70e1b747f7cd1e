/** Every queued shot lands exactly once, in its own second, over every run of the queue. */
module ArtilleryRuns {
  import opened Prelude
  import opened Artillery

  datatype Action = Launch(shot: Shot) | Second

  /** A launch and the second it was made in; its index in the history is its serial number. */
  datatype Fired = Fired(tick: nat, shot: Shot)

  datatype Landed = Landed(serial: nat, tick: nat)

  /** The queue beside a history of launches and landings; ordinals are reused, serials never are. */
  datatype Battery = Battery(
    shots: Queue, dice: nat, clock: nat, serials: map<nat, nat>, fired: seq<Fired>, landed: seq<Landed>)

  function Idle(dice: nat): Battery { Battery(map[], dice, 0, map[], [], []) }

  function LandedNow(serials: map<nat, nat>, ordinals: seq<nat>, tick: nat): (r: seq<Landed>)
    requires forall o :: o in ordinals ==> o in serials
    ensures |r| == |ordinals| && forall i :: 0 <= i < |r| ==> r[i] == Landed(serials[ordinals[i]], tick)
  {
    if ordinals == [] then [] else
      assert ordinals[0] in ordinals;
      [Landed(serials[ordinals[0]], tick)] + LandedNow(serials, ordinals[1..], tick)
  }

  function AfterLaunch(b: Battery, q: Queue, o: nat, shot: Shot): Battery {
    b.(shots := q, serials := b.serials[o := |b.fired|], fired := b.fired + [Fired(b.clock, shot)])
  }

  function AfterSecond(b: Battery, dice: nat): Battery
    requires b.serials.Keys == b.shots.Keys
  {
    var q := Ticked(b.shots);
    b.(shots := q, dice := dice, clock := b.clock + 1,
       serials := map o | o in b.serials && o in q :: b.serials[o],
       landed := b.landed + LandedNow(b.serials, Ascending(Landing(b.shots)), b.clock + 1))
  }

  /** A successful launch or second; a refused one leaves nothing to record. */
  function Step(field: Field, impact: Impact, b: Battery, a: Action): (r: Option<Battery>)
    requires b.serials.Keys == b.shots.Keys
    ensures r.Some? ==> r.value.serials.Keys == r.value.shots.Keys
  {
    match a
    case Launch(s) =>
      var q := Enqueued(field, b.shots, s);
      if q.Err? then None else Some(AfterLaunch(b, q.value.0, q.value.1, s))
    case Second =>
      var rolled := DiceAfter(field, impact, b.shots, Ascending(b.shots.Keys), b.dice);
      if rolled.None? then None else Some(AfterSecond(b, rolled.value))
  }

  // ----- What every run keeps

  function Due(f: Fired): nat { f.tick + f.shot.flight.remaining }

  function InFlight(f: Fired, clock: nat): Shot {
    f.shot.(flight := f.shot.flight.(remaining := Max(0, Due(f) - clock)))
  }

  function Values(m: map<nat, nat>): set<nat> { set o | o in m :: m[o] }

  function SerialsOf(l: seq<Landed>): set<nat> { set x | x in l :: x.serial }

  /** A pending shot is its launch, with exactly the seconds it has left. */
  ghost predicate PendingAt(b: Battery, o: nat)
    requires o in b.shots && o in b.serials
  {
    var s := b.serials[o];
    s < |b.fired| && b.fired[s].tick <= b.clock < Due(b.fired[s]) && b.shots[o] == InFlight(b.fired[s], b.clock)
  }

  ghost predicate PendingTracked(b: Battery) {
    b.serials.Keys == b.shots.Keys && |b.shots| <= MAXIMUM_SHOTS &&
    forall o :: o in b.shots ==> PendingAt(b, o)
  }

  /** Pending ordinals are in launch order. */
  ghost predicate InLaunchOrder(b: Battery) {
    forall o, p :: o in b.serials && p in b.serials && o < p ==> b.serials[o] < b.serials[p]
  }

  ghost predicate LandingAt(b: Battery, x: Landed) {
    x.serial < |b.fired| && x.tick == Due(b.fired[x.serial]) && x.tick <= b.clock
  }

  ghost predicate OncePerSerial(landed: seq<Landed>) {
    forall i, j :: 0 <= i < j < |landed| ==> landed[i].serial != landed[j].serial
  }

  ghost predicate LandingsTracked(b: Battery) {
    (forall x :: x in b.landed ==> LandingAt(b, x)) && OncePerSerial(b.landed)
  }

  /** A launch is either still pending or has landed. */
  ghost predicate Accounted(b: Battery, s: nat)
    requires s < |b.fired|
  {
    if b.clock < Due(b.fired[s]) then s in Values(b.serials) else s in SerialsOf(b.landed)
  }

  ghost predicate Conserved(b: Battery) { forall s :: 0 <= s < |b.fired| ==> Accounted(b, s) }

  ghost predicate Tracked(b: Battery) {
    PendingTracked(b) && InLaunchOrder(b) && LandingsTracked(b) && Conserved(b)
  }

  // ----- A launch

  /** What a successful launch changes. */
  ghost predicate LaunchedTo(b: Battery, c: Battery, o: nat, shot: Shot) {
    c.clock == b.clock && c.landed == b.landed && c.fired == b.fired + [Fired(b.clock, shot)] &&
    c.shots == b.shots[o := shot] && c.serials == b.serials[o := |b.fired|] &&
    (forall p :: p in b.shots ==> p < o) && shot.flight.remaining > 0 && |c.shots| <= MAXIMUM_SHOTS
  }

  lemma LaunchFacts(field: Field, impact: Impact, b: Battery, shot: Shot, c: Battery) returns (o: nat)
    requires b.serials.Keys == b.shots.Keys && Step(field, impact, b, Launch(shot)) == Some(c)
    ensures LaunchedTo(b, c, o, shot)
  {
    o := Enqueued(field, b.shots, shot).value.1;
    assert ValidShot(field, c.shots[o]);
  }

  lemma LaunchKeepsPending(b: Battery, c: Battery, o: nat, shot: Shot)
    requires Tracked(b) && LaunchedTo(b, c, o, shot)
    ensures PendingTracked(c) && InLaunchOrder(c)
  {
    forall p | p in c.shots
      ensures PendingAt(c, p)
    {
      if p != o {
        assert PendingAt(b, p);
      }
    }
    LaunchKeepsOrder(b, c, o, shot);
  }

  lemma LaunchKeepsOrder(b: Battery, c: Battery, o: nat, shot: Shot)
    requires PendingTracked(b) && InLaunchOrder(b) && LaunchedTo(b, c, o, shot)
    ensures InLaunchOrder(c)
  {
    forall p, q | p in c.serials && q in c.serials && p < q
      ensures c.serials[p] < c.serials[q]
    {
      if q == o {
        assert PendingAt(b, p);
      }
    }
  }

  lemma LaunchKeepsHistory(b: Battery, c: Battery, o: nat, shot: Shot)
    requires Tracked(b) && LaunchedTo(b, c, o, shot)
    ensures LandingsTracked(c) && Conserved(c)
  {
    forall x | x in c.landed
      ensures LandingAt(c, x)
    {
      assert LandingAt(b, x);
    }
    forall s | 0 <= s < |c.fired|
      ensures Accounted(c, s)
    {
      if s == |b.fired| {
        assert c.serials[o] == s;
      } else {
        assert Accounted(b, s);
        if b.clock < Due(b.fired[s]) {
          var p :| p in b.serials && b.serials[p] == s;
          assert p in c.serials && c.serials[p] == s;
        }
      }
    }
  }

  // ----- A second

  /** What a successful second changes. */
  ghost predicate TickedTo(b: Battery, c: Battery) {
    b.serials.Keys == b.shots.Keys && c.serials.Keys == c.shots.Keys &&
    c.clock == b.clock + 1 && c.fired == b.fired &&
    (forall o :: o in c.shots <==> o in b.shots && Seconds(b.shots, o) != 1) &&
    (forall o :: o in c.shots ==> c.shots[o] == Flown(b.shots[o]) && c.serials[o] == b.serials[o]) &&
    c.landed == b.landed + LandedNow(b.serials, Ascending(Landing(b.shots)), c.clock)
  }

  lemma SecondFacts(field: Field, impact: Impact, b: Battery, c: Battery)
    requires b.serials.Keys == b.shots.Keys && Step(field, impact, b, Second) == Some(c)
    ensures TickedTo(b, c)
  {
    AfterSecondFacts(b, c);
  }

  lemma AfterSecondFacts(b: Battery, c: Battery)
    requires b.serials.Keys == b.shots.Keys && c == AfterSecond(b, c.dice)
    ensures TickedTo(b, c)
  {
  }

  lemma SecondAt(b: Battery, c: Battery, o: nat)
    requires TickedTo(b, c) && o in b.shots && PendingAt(b, o)
    ensures Seconds(b.shots, o) == 1 <==> Due(b.fired[b.serials[o]]) == c.clock
    ensures o in c.shots ==> PendingAt(c, o)
  {
  }

  lemma SecondKeepsPending(b: Battery, c: Battery)
    requires Tracked(b) && TickedTo(b, c)
    ensures PendingTracked(c) && InLaunchOrder(c)
  {
    assert c.shots.Keys <= b.shots.Keys;
    SizeOfPart(c.shots.Keys, b.shots.Keys);
    assert |c.shots| == |c.shots.Keys| && |b.shots| == |b.shots.Keys|;
    forall o | o in c.shots
      ensures PendingAt(c, o)
    {
      SecondAt(b, c, o);
    }
  }

  lemma LandedNowAt(b: Battery, c: Battery, i: nat)
    requires Tracked(b) && TickedTo(b, c) && i < |Ascending(Landing(b.shots))|
    ensures var o := Ascending(Landing(b.shots))[i];
            o in b.shots && o in b.serials && b.serials[o] < |b.fired| && Due(b.fired[b.serials[o]]) == c.clock
  {
    var o := Ascending(Landing(b.shots))[i];
    assert o in Landing(b.shots) && PendingAt(b, o);
    SecondAt(b, c, o);
  }

  lemma SecondKeepsLandings(b: Battery, c: Battery)
    requires Tracked(b) && TickedTo(b, c)
    ensures LandingsTracked(c)
  {
    var ordinals := Ascending(Landing(b.shots));
    var now := LandedNow(b.serials, ordinals, c.clock);
    assert c.landed == b.landed + now;
    forall x | x in c.landed
      ensures LandingAt(c, x)
    {
      if x in b.landed {
        assert LandingAt(b, x);
      } else {
        assert x in now;
        var i :| 0 <= i < |now| && now[i] == x;
        LandedNowAt(b, c, i);
      }
    }
    SecondLandsOnce(b, c);
  }

  lemma LandedTogetherDiffer(b: Battery, c: Battery, i: nat, j: nat)
    requires Tracked(b) && TickedTo(b, c) && i < j < |Ascending(Landing(b.shots))|
    ensures var now := LandedNow(b.serials, Ascending(Landing(b.shots)), c.clock); now[i].serial != now[j].serial
  {
    LandedNowAt(b, c, i);
    LandedNowAt(b, c, j);
  }

  lemma LandedApartDiffer(b: Battery, c: Battery, x: Landed, j: nat)
    requires Tracked(b) && TickedTo(b, c) && x in b.landed && j < |Ascending(Landing(b.shots))|
    ensures x.serial != LandedNow(b.serials, Ascending(Landing(b.shots)), c.clock)[j].serial
  {
    assert LandingAt(b, x);
    LandedNowAt(b, c, j);
  }

  lemma OnceAppend(x: seq<Landed>, y: seq<Landed>)
    requires OncePerSerial(x) && OncePerSerial(y)
    requires forall i, j :: 0 <= i < |x| && 0 <= j < |y| ==> x[i].serial != y[j].serial
    ensures OncePerSerial(x + y)
  {
  }

  lemma SecondLandsOnce(b: Battery, c: Battery)
    requires Tracked(b) && TickedTo(b, c)
    ensures OncePerSerial(c.landed)
  {
    var now := LandedNow(b.serials, Ascending(Landing(b.shots)), c.clock);
    forall i, j | 0 <= i < j < |now|
      ensures now[i].serial != now[j].serial
    {
      LandedTogetherDiffer(b, c, i, j);
    }
    forall i, j | 0 <= i < |b.landed| && 0 <= j < |now|
      ensures b.landed[i].serial != now[j].serial
    {
      LandedApartDiffer(b, c, b.landed[i], j);
    }
    OnceAppend(b.landed, now);
  }

  /** A shot landing this second is recorded under its serial. */
  lemma LandingIsRecorded(b: Battery, c: Battery, o: nat)
    requires TickedTo(b, c) && o in Landing(b.shots)
    ensures o in b.serials && b.serials[o] in SerialsOf(c.landed)
  {
    var ordinals := Ascending(Landing(b.shots));
    var i :| 0 <= i < |ordinals| && ordinals[i] == o;
    var x := LandedNow(b.serials, ordinals, c.clock)[i];
    assert x in c.landed && x.serial == b.serials[o];
  }

  lemma SecondConserves(b: Battery, c: Battery, s: nat)
    requires Tracked(b) && TickedTo(b, c) && s < |c.fired|
    ensures Accounted(c, s)
  {
    assert Accounted(b, s);
    if b.clock < Due(b.fired[s]) {
      var o :| o in b.serials && b.serials[o] == s;
      assert PendingAt(b, o);
      SecondAt(b, c, o);
      if Seconds(b.shots, o) == 1 {
        LandingIsRecorded(b, c, o);
      } else {
        assert o in c.serials && c.serials[o] == s;
      }
    } else {
      var x :| x in b.landed && x.serial == s;
      assert x in c.landed;
    }
  }

  lemma StepTracked(field: Field, impact: Impact, b: Battery, a: Action, c: Battery)
    requires Tracked(b) && Step(field, impact, b, a) == Some(c)
    ensures Tracked(c)
  {
    if a.Launch? {
      var o := LaunchFacts(field, impact, b, a.shot, c);
      LaunchKeepsPending(b, c, o, a.shot);
      LaunchKeepsHistory(b, c, o, a.shot);
    } else {
      SecondFacts(field, impact, b, c);
      SecondKeepsPending(b, c);
      SecondKeepsLandings(b, c);
      forall s | 0 <= s < |c.fired|
        ensures Accounted(c, s)
      {
        SecondConserves(b, c, s);
      }
    }
  }

  // ----- Whole runs

  /** The battery after a sequence of actions from an idle start, if all of them succeed. */
  function Run(field: Field, impact: Impact, dice: nat, actions: seq<Action>): (r: Option<Battery>)
    ensures r.Some? ==> r.value.serials.Keys == r.value.shots.Keys
  {
    if actions == [] then Some(Idle(dice)) else
      match Run(field, impact, dice, actions[..|actions| - 1])
      case None => None
      case Some(b) => Step(field, impact, b, actions[|actions| - 1])
  }

  lemma IdleTracked(dice: nat)
    ensures Tracked(Idle(dice))
  {
  }

  lemma {:induction false} RunTracked(field: Field, impact: Impact, dice: nat, actions: seq<Action>)
    requires Run(field, impact, dice, actions).Some?
    ensures Tracked(Run(field, impact, dice, actions).value)
    decreases |actions|
  {
    if actions == [] {
      IdleTracked(dice);
    } else {
      var before := actions[..|actions| - 1];
      RunTracked(field, impact, dice, before);
      StepTracked(field, impact, Run(field, impact, dice, before).value, actions[|actions| - 1],
                  Run(field, impact, dice, actions).value);
    }
  }

  ghost predicate PendingOnce(b: Battery, s: nat) {
    s < |b.fired| && s !in SerialsOf(b.landed) &&
    (exists o :: o in b.shots && o in b.serials && b.serials[o] == s && b.shots[o] == InFlight(b.fired[s], b.clock)) &&
    forall o, p :: o in b.serials && p in b.serials && b.serials[o] == s == b.serials[p] ==> o == p
  }

  ghost predicate LandedOnce(b: Battery, s: nat) {
    s < |b.fired| && s !in Values(b.serials) &&
    (exists i :: 0 <= i < |b.landed| && b.landed[i] == Landed(s, Due(b.fired[s]))) &&
    forall i, j :: 0 <= i < j < |b.landed| ==> !(b.landed[i].serial == s == b.landed[j].serial)
  }

  lemma TrackedShot(b: Battery, s: nat)
    requires Tracked(b) && s < |b.fired|
    ensures if b.clock < Due(b.fired[s]) then PendingOnce(b, s) else LandedOnce(b, s)
  {
    assert Accounted(b, s);
    if b.clock < Due(b.fired[s]) {
      var o :| o in b.serials && b.serials[o] == s;
      assert PendingAt(b, o);
      assert forall x :: x in b.landed ==> LandingAt(b, x);
    } else {
      var x :| x in b.landed && x.serial == s;
      assert LandingAt(b, x);
      var i :| 0 <= i < |b.landed| && b.landed[i] == x;
      assert b.landed[i] == Landed(s, Due(b.fired[s]));
      assert forall o :: o in b.serials ==> PendingAt(b, o);
    }
  }

  /**
   * At any point of any run, a shot fired in second t with countdown r is queued once with
   * exactly t + r - now seconds left, or has landed once, in second t + r, and has left the queue.
   */
  lemma EveryShotLandsOnceOnTime(field: Field, impact: Impact, dice: nat, actions: seq<Action>, s: nat)
    requires Run(field, impact, dice, actions).Some? && s < |Run(field, impact, dice, actions).value.fired|
    ensures var b := Run(field, impact, dice, actions).value;
            if b.clock < Due(b.fired[s]) then PendingOnce(b, s) else LandedOnce(b, s)
  {
    RunTracked(field, impact, dice, actions);
    TrackedShot(Run(field, impact, dice, actions).value, s);
  }

  /** The queue stays within its bound and in launch order over every run. */
  lemma QueueStaysBoundedAndOrdered(field: Field, impact: Impact, dice: nat, actions: seq<Action>)
    requires Run(field, impact, dice, actions).Some?
    ensures var b := Run(field, impact, dice, actions).value; |b.shots| <= MAXIMUM_SHOTS && InLaunchOrder(b)
  {
    RunTracked(field, impact, dice, actions);
  }

  // ----- The dice over whole runs

  /** The flights of recorded landings, each as it stood in its last second. */
  function LandedFlights(fired: seq<Fired>, landed: seq<Landed>): (r: seq<Flight>)
    requires forall x :: x in landed ==> x.serial < |fired|
    ensures |r| == |landed|
    ensures forall i :: 0 <= i < |r| ==> r[i] == fired[landed[i].serial].shot.flight.(remaining := 1)
  {
    if landed == [] then [] else
      assert landed[0] in landed;
      [fired[landed[0].serial].shot.flight.(remaining := 1)] + LandedFlights(fired, landed[1..])
  }

  lemma {:induction false} RolledAppend(impact: Impact, a: seq<Flight>, b: seq<Flight>, dice: nat)
    requires Rolled(impact, a, dice).Some?
    ensures Rolled(impact, a + b, dice) == Rolled(impact, b, Rolled(impact, a, dice).value)
  {
    if a == [] {
      assert a + b == b;
    } else {
      assert (a + b)[1..] == a[1..] + b;
      RolledAppend(impact, a[1..], b, impact(a[0], dice).value);
    }
  }

  lemma TrackedSerials(b: Battery)
    requires Tracked(b)
    ensures forall x :: x in b.landed ==> x.serial < |b.fired|
  {
    assert forall x :: x in b.landed ==> LandingAt(b, x);
  }

  lemma LandingFlightIs(b: Battery, c: Battery, i: nat)
    requires Tracked(b) && TickedTo(b, c) && i < |Ascending(Landing(b.shots))|
    ensures var o := Ascending(Landing(b.shots))[i];
            o in b.shots && o in b.serials && b.serials[o] < |b.fired| &&
            b.shots[o].flight == b.fired[b.serials[o]].shot.flight.(remaining := 1)
  {
    var o := Ascending(Landing(b.shots))[i];
    assert o in Landing(b.shots) && PendingAt(b, o);
  }

  lemma LandedFlightsAppend(fired: seq<Fired>, a: seq<Landed>, b: seq<Landed>)
    requires forall x :: x in a + b ==> x.serial < |fired|
    ensures (forall x :: x in a ==> x in a + b) && (forall x :: x in b ==> x in a + b)
    ensures LandedFlights(fired, a + b) == LandedFlights(fired, a) + LandedFlights(fired, b)
  {
  }

  lemma LandedNowFlights(b: Battery, c: Battery)
    requires Tracked(b) && TickedTo(b, c)
    ensures var ordinals := Ascending(Landing(b.shots));
            var now := LandedNow(b.serials, ordinals, c.clock);
            (forall x :: x in now ==> x.serial < |b.fired|) &&
            LandedFlights(b.fired, now) == Flights(b.shots, ordinals)
  {
    var ordinals := Ascending(Landing(b.shots));
    var now := LandedNow(b.serials, ordinals, c.clock);
    forall i | 0 <= i < |ordinals|
      ensures now[i].serial < |b.fired|
      ensures Flights(b.shots, ordinals)[i] == b.fired[now[i].serial].shot.flight.(remaining := 1)
    {
      LandingFlightIs(b, c, i);
    }
  }

  lemma LandedFlightsGrow(b: Battery, c: Battery)
    requires Tracked(b) && Tracked(c) && TickedTo(b, c)
    ensures (forall x :: x in b.landed ==> x.serial < |b.fired|) && (forall x :: x in c.landed ==> x.serial < |c.fired|)
    ensures LandedFlights(c.fired, c.landed) ==
            LandedFlights(b.fired, b.landed) + Flights(b.shots, Ascending(Landing(b.shots)))
  {
    TrackedSerials(b);
    TrackedSerials(c);
    LandedNowFlights(b, c);
    LandedFlightsAppend(b.fired, b.landed, LandedNow(b.serials, Ascending(Landing(b.shots)), c.clock));
  }

  ghost predicate DiceTracked(impact: Impact, dice: nat, b: Battery) {
    (forall x :: x in b.landed ==> x.serial < |b.fired|) &&
    Rolled(impact, LandedFlights(b.fired, b.landed), dice) == Some(b.dice)
  }

  lemma StepDice(field: Field, impact: Impact, dice: nat, b: Battery, a: Action, c: Battery)
    requires Tracked(b) && Step(field, impact, b, a) == Some(c) && DiceTracked(impact, dice, b)
    ensures DiceTracked(impact, dice, c)
  {
    StepTracked(field, impact, b, a, c);
    TrackedSerials(c);
    if a.Launch? {
      assert LandedFlights(c.fired, c.landed) == LandedFlights(b.fired, b.landed);
    } else {
      SecondFacts(field, impact, b, c);
      LandedFlightsGrow(b, c);
      SecondRollsLandings(field, impact, b.shots, b.dice);
      RolledAppend(impact, LandedFlights(b.fired, b.landed), Flights(b.shots, Ascending(Landing(b.shots))), dice);
    }
  }

  /** Over every run the dice stand where resolving the landings alone, in order, leaves them. */
  lemma {:induction false} RunRollsLandings(field: Field, impact: Impact, dice: nat, actions: seq<Action>)
    requires Run(field, impact, dice, actions).Some?
    ensures DiceTracked(impact, dice, Run(field, impact, dice, actions).value)
    decreases |actions|
  {
    if actions != [] {
      var before := actions[..|actions| - 1];
      RunRollsLandings(field, impact, dice, before);
      RunTracked(field, impact, dice, before);
      StepDice(field, impact, dice, Run(field, impact, dice, before).value, actions[|actions| - 1],
               Run(field, impact, dice, actions).value);
    }
  }

  // ----- Saving and reloading

  /** Saving and reloading any pending shot of any run restores it exactly. */
  lemma PendingShotsReload(rules: Rules, field: Field, impact: Impact, dice: nat, actions: seq<Action>, o: nat)
    requires Run(field, impact, dice, actions).Some? && o in Run(field, impact, dice, actions).value.shots
    requires forall f :: f in Run(field, impact, dice, actions).value.fired ==> Launched(rules, f.shot.flight)
    ensures var flight := Run(field, impact, dice, actions).value.shots[o].flight;
            FromSaved(rules, flight) == Some(flight)
  {
    var b := Run(field, impact, dice, actions).value;
    RunTracked(field, impact, dice, actions);
    assert PendingAt(b, o);
    var fired := b.fired[b.serials[o]];
    ReloadRestoresIff(rules, fired.shot.flight);
    assert b.shots[o].flight == fired.shot.flight.(remaining := b.shots[o].flight.remaining);
  }
}
