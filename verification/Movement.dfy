/** Transactional movement: departures, one domain commit, and arrivals that unwind in reverse. */
module Movement {
  import opened Prelude
  import opened Worlds

  datatype Route = HomeRoute | Teleport | SilentTeleport | Travel(exit: int) | Generic

  datatype Request = Request(actor: int, moved: int, cause: int, destination: int, session: Option<nat>, route: Route)

  /** `BatchDenied` marks a refused participant; every other failure is `Failed`. */
  datatype MoveError = BatchDenied | Failed

  /** The script callbacks of a movement, which may do anything to the world. */
  datatype HookName =
    | LockTest(at: int)
    | LockDenied(at: int)
    | TeleportSource
    | ExitSuccess
    | LeaveTransition
    | Look
    | ExitDrop
    | TeleportDone
    | MoveDone
    | ArriveTransition

  datatype Step =
    | Hook(who: int, cause: Option<int>, name: HookName)
    | Left(who: int)
    | Commit
    | Placed(who: int, at: int)
    | Arrived(who: int)
    | Refused(who: int)

  /** A step with the world it was given and the world it left. */
  datatype Event = Event(step: Step, before: World, after: World)

  /**
   * What the server itself tells people: "Already there.", "Permission denied.", "There's no place
   * like home...", "Teleported." and "Exit teleported."; scripts may say anything.
   */
  datatype Notice = AlreadyThere | PermissionDenied | HomeAgain | Teleported | ExitTeleported | Scripted(text: string)

  // ----- Checks repeated around callbacks

  predicate StillThere(w: World, id: int, generation: nat) {
    id in w.objects && w.objects[id].generation == generation && !w.objects[id].kind.Garbage?
  }

  predicate InZoneOf(w: World, actor: int, source: Option<int>, exit: Object) {
    source.Some? && source.value in w.objects &&
    var zone := w.objects[source.value].zone;
    zone.Some? && zone.value in w.objects && w.objects[zone.value].kind.Room? &&
    actor in w.objects && source != w.objects[actor].zone && w.objects[actor].zone == exit.location &&
    exit.location.Some? && exit.location.value in w.objects && ContainerKind(w.objects[exit.location.value].kind)
  }

  predicate ExitStillLeads(w: World, request: Request, source: Option<int>) {
    request.route.Travel? ==>
      request.route.exit in w.objects &&
      var exit := w.objects[request.route.exit];
      exit.kind.Exit? && exit.destination == Some(request.destination) &&
      (exit.location == source || InZoneOf(w, request.actor, source, exit))
  }

  function Participants(request: Request): set<int> {
    {request.moved, request.destination} + if request.route.Travel? then {request.route.exit} else {}
  }

  /**
   * The same mover, destination and exit that the movement began with are still there, the exit
   * still leads from the old location, and the move is still a valid one.
   */
  predicate Upheld(before: World, now: World, request: Request) {
    request.moved in before.objects &&
    (forall id: int :: id in Participants(request) ==>
      id in before.objects && StillThere(now, id, before.objects[id].generation)) &&
    ExitStillLeads(now, request, before.objects[request.moved].location) &&
    ValidMove(now, request.moved, request.destination)
  }

  /** Places whose locks a teleport must pass: the destination's, then those of every container left. */
  function Locks(w: World, request: Request): Option<seq<int>>
    requires request.moved in w.objects
  {
    if !request.route.Teleport? && !request.route.SilentTeleport? then Some([])
    else
      var target, o := if request.route.Teleport? then [request.destination] else [], w.objects[request.moved];
      if o.kind.Exit? then Some(target)
      else
        match Containment(w, o.location)
        case None => None
        case Some(chain) => Some(target + chain)
  }

  /** Facts captured when the movement began, and the check repeated after every callback. */
  datatype Ticket = Ticket(kind: Kind, hush: bool, locks: seq<int>, holds: World -> bool)

  function Check(before: World, request: Request): World -> bool { (now: World) => Upheld(before, now, request) }

  /** A ticket, if the participants exist, the movement is valid and the containers to leave are sound. */
  function Issue(w: World, request: Request): Option<Ticket>
    requires request.moved in w.objects
  {
    if (exists id: int :: id in Participants(request) && !(id in w.objects && !w.objects[id].kind.Garbage?)) ||
       !Upheld(w, w, request) || Locks(w, request).None? then None
    else Some(Ticket(w.objects[request.moved].kind, false, Locks(w, request).value, Check(w, request)))
  }

  /** The facts a ticket records are those of the world the movement began in. */
  ghost predicate Captured(before: World, request: Request, ticket: Ticket) {
    request.moved in before.objects && Issue(before, request) == Some(ticket.(hush := false))
  }

  lemma CapturedExactly(before: World, request: Request, ticket: Ticket, now: World)
    requires Captured(before, request, ticket)
    ensures ticket.kind == before.objects[request.moved].kind && Locks(before, request) == Some(ticket.locks)
    ensures ticket.holds(now) <==> Upheld(before, now, request)
  {
  }

  function PlacedIn(w: World, request: Request): World
    requires request.moved in w.objects
  {
    w.(objects := w.objects[request.moved := w.objects[request.moved].(location := Some(request.destination))])
  }

  // ----- Shapes of event histories

  /** Each event starts from the world the previous one left. */
  ghost predicate Linked(events: seq<Event>, from: World, to: World) {
    if events == [] then from == to
    else
      var last := events[|events| - 1];
      last.after == to && Linked(events[..|events| - 1], from, last.before)
  }

  lemma {:induction false} LinkedAppend(a: seq<Event>, b: seq<Event>, from: World, mid: World, to: World)
    requires Linked(a, from, mid) && Linked(b, mid, to)
    ensures Linked(a + b, from, to)
  {
    if b == [] {
      assert a + b == a;
    } else {
      assert (a + b)[..|a + b| - 1] == a + b[..|b| - 1];
      LinkedAppend(a, b[..|b| - 1], from, mid, b[|b| - 1].before);
    }
  }

  lemma LinkedOne(e: Event)
    ensures Linked([e], e.before, e.after)
  {
    assert [e][..0] == [];
  }

  lemma LinkedSnoc(a: seq<Event>, e: Event, from: World)
    requires Linked(a, from, e.before)
    ensures Linked(a + [e], from, e.after)
  {
    assert (a + [e])[..|a|] == a;
  }

  /** A callback under the mover's cause; only the first look at a new place precedes revalidation. */
  ghost predicate HookAt(e: Event, request: Request, ticket: Ticket, name: HookName) {
    e.step == Hook(request.moved, Some(request.cause), name) && (name != Look ==> ticket.holds(e.before))
  }

  /** Exactly these callbacks, in this order. */
  ghost predicate HookRun(events: seq<Event>, request: Request, ticket: Ticket, names: seq<HookName>) {
    |events| == |names| && forall i :: 0 <= i < |events| ==> HookAt(events[i], request, ticket, names[i])
  }

  function Tests(locks: seq<int>): seq<HookName> { seq(|locks|, i requires 0 <= i < |locks| => LockTest(locks[i])) }

  /** Callbacks between the locks and the departure. */
  function EarlyNames(request: Request, ticket: Ticket): seq<HookName> {
    (if request.route.Teleport? && !ticket.kind.Exit? && !ticket.hush then [TeleportSource] else []) +
    (if request.route.Travel? then [ExitSuccess] else []) +
    (if ticket.kind.Exit? then [] else [LeaveTransition])
  }

  /** Callbacks between the placement and the arrival. */
  function LateNames(request: Request, ticket: Ticket, looks: bool): seq<HookName> {
    (if looks then [Look] else []) +
    (if request.route.Travel? then [ExitDrop] else []) +
    (if ticket.kind.Exit? then [] else
       (if request.route.Teleport? && !ticket.hush then [TeleportDone] else []) + [MoveDone, ArriveTransition])
  }

  /** The callbacks of each kind of journey, written out. */
  lemma HookTable(request: Request, ticket: Ticket)
    ensures var early, late := EarlyNames(request, ticket), LateNames(request, ticket, false);
            match request.route
            case Travel(_) =>
              if ticket.kind.Exit? then early == [ExitSuccess] && late == [ExitDrop]
              else early == [ExitSuccess, LeaveTransition] && late == [ExitDrop, MoveDone, ArriveTransition]
            case Teleport =>
              if ticket.kind.Exit? then early == [] == late
              else if ticket.hush then early == [LeaveTransition] && late == [MoveDone, ArriveTransition]
              else early == [TeleportSource, LeaveTransition] && late == [TeleportDone, MoveDone, ArriveTransition]
            case _ =>
              if ticket.kind.Exit? then early == [] == late
              else early == [LeaveTransition] && late == [MoveDone, ArriveTransition]
    ensures LateNames(request, ticket, true) == [Look] + LateNames(request, ticket, false)
  {
  }

  /** A teleport tests the destination and then every enclosing container, a silent one only the latter. */
  lemma LocksExactly(w: World, request: Request)
    requires request.moved in w.objects && Locks(w, request).Some?
    ensures var o, locks := w.objects[request.moved], Locks(w, request).value;
            var left := if o.kind.Exit? then Some([]) else Containment(w, o.location);
            match request.route
            case Teleport => left.Some? && locks == [request.destination] + left.value
            case SilentTeleport => left.Some? && locks == left.value
            case _ => locks == []
  {
  }

  predicate Looks(w: World, request: Request, ticket: Ticket) {
    ticket.kind.Player? && request.moved in w.objects &&
    ((request.session.Some? && request.actor == request.moved) || Connected in w.objects[request.moved].flags)
  }

  /** A teleport is hushed when it is silent, or when the mover is dark once the locks are passed. */
  ghost predicate HushDecided(w: World, request: Request, ticket: Ticket) {
    request.moved in w.objects &&
    ticket.hush == (request.route.SilentTeleport? ||
                    (request.route.Teleport? && Dark in w.objects[request.moved].flags))
  }

  /** Every lock tested, every departure callback run, and the movement still valid. */
  ghost predicate Departure(events: seq<Event>, request: Request, ticket: Ticket) {
    events != [] &&
    var n := |events| - 1;
    HookRun(events[..n], request, ticket, Tests(ticket.locks) + EarlyNames(request, ticket)) &&
    events[n] == Event(Left(request.moved), events[n].before, events[n].before) && ticket.holds(events[n].before) &&
    |ticket.locks| < |events| && HushDecided(events[|ticket.locks|].before, request, ticket)
  }

  /** Already there, or the lock tested last was not passed. */
  ghost predicate Refusal(events: seq<Event>, request: Request, before: World) {
    request.moved in before.objects && events != [] &&
    var n := |events| - 1;
    events[n] == Event(Refused(request.moved), events[n].before, events[n].before) &&
    if before.objects[request.moved].location == Some(request.destination) then n == 0
    else Issue(before, request).Some? && DeniedBy(events[..n], request, Issue(before, request).value)
  }

  ghost predicate DeniedBy(events: seq<Event>, request: Request, ticket: Ticket) {
    var n := |events| - 1;
    1 <= n <= |ticket.locks| && HookRun(events[..n], request, ticket, Tests(ticket.locks[..n])) &&
    events[n].step == Hook(request.moved, Some(request.cause), LockDenied(ticket.locks[n - 1]))
  }

  /** The mover placed and nothing else touched, then every arrival callback, and the movement still valid. */
  ghost predicate Arrival(events: seq<Event>, request: Request, ticket: Ticket) {
    |events| >= 2 &&
    var first, n := events[0], |events| - 1;
    first.step == Placed(request.moved, request.destination) && request.moved in first.before.objects &&
    first.after == PlacedIn(first.before, request) &&
    HookRun(events[1..n], request, ticket, LateNames(request, ticket, Looks(first.after, request, ticket))) &&
    events[n] == Event(Arrived(request.moved), events[n].before, events[n].before) &&
    ticket.holds(events[n].before)
  }

  /** A movement cut short by a failure. */
  ghost predicate Uncommitted(events: seq<Event>) {
    forall e :: e in events ==> !e.step.Commit? && !e.step.Refused?
  }

  function Commits(events: seq<Event>): nat {
    if events == [] then 0 else (if events[0].step.Commit? then 1 else 0) + Commits(events[1..])
  }

  lemma {:induction false} CommitsAppend(a: seq<Event>, b: seq<Event>)
    ensures Commits(a + b) == Commits(a) + Commits(b)
  {
    if a == [] {
      assert a + b == b;
    } else {
      assert (a + b)[1..] == a[1..] + b;
      CommitsAppend(a[1..], b);
    }
  }

  lemma {:induction false} UncommittedHasNoCommits(events: seq<Event>)
    requires forall e :: e in events ==> !e.step.Commit?
    ensures Commits(events) == 0
  {
    if events != [] {
      UncommittedHasNoCommits(events[1..]);
    }
  }

  ghost predicate EndsRefused(events: seq<Event>) { events != [] && events[|events| - 1].step.Refused? }

  lemma HooksAreUncommitted(events: seq<Event>, request: Request, ticket: Ticket, names: seq<HookName>)
    requires HookRun(events, request, ticket, names)
    ensures Uncommitted(events)
  {
  }

  lemma DepartureHasNoCommits(events: seq<Event>, request: Request, ticket: Ticket)
    requires Departure(events, request, ticket)
    ensures Commits(events) == 0 && Uncommitted(events)
  {
    var n := |events| - 1;
    assert events == events[..n] + [events[n]];
    HooksAreUncommitted(events[..n], request, ticket, Tests(ticket.locks) + EarlyNames(request, ticket));
    UncommittedHasNoCommits(events);
  }

  lemma ArrivalHasNoCommits(events: seq<Event>, request: Request, ticket: Ticket)
    requires Arrival(events, request, ticket)
    ensures Commits(events) == 0 && Uncommitted(events)
  {
    var n := |events| - 1;
    assert events == [events[0]] + events[1..n] + [events[n]];
    HooksAreUncommitted(events[1..n], request, ticket,
                        LateNames(request, ticket, Looks(events[0].after, request, ticket)));
    UncommittedHasNoCommits(events);
  }

  lemma DeniedIsUncommitted(events: seq<Event>, request: Request, ticket: Ticket)
    requires DeniedBy(events, request, ticket)
    ensures Uncommitted(events)
  {
    var n := |events| - 1;
    HooksAreUncommitted(events[..n], request, ticket, Tests(ticket.locks[..n]));
    assert events == events[..n] + [events[n]];
  }

  lemma RefusalHasNoCommits(events: seq<Event>, request: Request, before: World)
    requires Refusal(events, request, before)
    ensures Commits(events) == 0 && EndsRefused(events)
  {
    var n := |events| - 1;
    if n > 0 {
      DeniedIsUncommitted(events[..n], request, Issue(before, request).value);
    }
    assert events == events[..n] + [events[n]];
    UncommittedHasNoCommits(events);
  }

  /** One participant's part of a movement: what it did before and after the inner steps, and their worlds. */
  datatype Leg = Leg(ticket: Ticket, departure: seq<Event>, arrival: seq<Event>, from: World, to: World)

  const NOWHERE := World(map[], {}, map[], map[], map[])
  const NO_LEG := Leg(Ticket(Garbage, false, [], (w: World) => false), [], [], NOWHERE, NOWHERE)

  /** The participant departed, the inner steps ran from where it left, and it arrived in what they left. */
  ghost predicate MovedAround(
    events: seq<Event>, request: Request, leg: Leg, inner: seq<Event>, before: World, after: World)
  {
    events == leg.departure + inner + leg.arrival &&
    Departure(leg.departure, request, leg.ticket) && Linked(leg.departure, before, leg.from) &&
    Linked(inner, leg.from, leg.to) &&
    Arrival(leg.arrival, request, leg.ticket) && Linked(leg.arrival, leg.to, after)
  }

  /** Both departures, one commit, then the arrivals in reverse order. */
  ghost predicate PairMoved(
    events: seq<Event>, first: Request, second: Request, outer: Leg, inner: Leg, commit: Event, before: World,
    after: World)
  {
    commit.step == Commit &&
    var middle := inner.departure + [commit] + inner.arrival;
    MovedAround(middle, second, inner, [commit], outer.from, outer.to) &&
    MovedAround(events, first, outer, middle, before, after)
  }

  /** The notice an actor gets last for moving something else openly. */
  ghost predicate Told(outbox: seq<(int, Notice)>, request: Request, kind: Kind) {
    request.moved != request.actor && !request.route.Generic? && !request.route.SilentTeleport? ==>
      outbox != [] &&
      outbox[|outbox| - 1] == (request.actor, if kind.Exit? then ExitTeleported else Teleported)
  }

  lemma {:induction false} LinkedFirst(events: seq<Event>, from: World, to: World)
    requires Linked(events, from, to) && events != []
    ensures events[0].before == from
  {
    if |events| > 1 {
      LinkedFirst(events[..|events| - 1], from, events[|events| - 1].before);
    }
  }

  lemma HookRunAppend(
    a: seq<Event>, b: seq<Event>, request: Request, ticket: Ticket, names: seq<HookName>, more: seq<HookName>)
    requires HookRun(a, request, ticket, names) && HookRun(b, request, ticket, more)
    ensures HookRun(a + b, request, ticket, names + more)
  {
  }

  lemma TestsGrow(hooks: seq<Event>, request: Request, ticket: Ticket, locks: seq<int>, i: nat, e: Event)
    requires i < |locks| && HookRun(hooks, request, ticket, Tests(locks[..i]))
    requires HookAt(e, request, ticket, LockTest(locks[i]))
    ensures HookRun(hooks + [e], request, ticket, Tests(locks[..i + 1]))
  {
    assert Tests(locks[..i + 1]) == Tests(locks[..i]) + [LockTest(locks[i])];
  }

  lemma DeniedAfter(
    tests: seq<Event>, request: Request, ticket: Ticket, i: nat, e: Event)
    requires i < |ticket.locks| && HookRun(tests, request, ticket, Tests(ticket.locks[..i + 1]))
    requires e.step == Hook(request.moved, Some(request.cause), LockDenied(ticket.locks[i]))
    ensures DeniedBy(tests + [e], request, ticket)
  {
    assert (tests + [e])[..|tests|] == tests;
  }

  lemma HoldsIgnoresHush(events: seq<Event>, request: Request, given: Ticket, ticket: Ticket, names: seq<HookName>)
    requires HookRun(events, request, given, names) && ticket == given.(hush := ticket.hush)
    ensures HookRun(events, request, ticket, names)
  {
  }

  lemma DepartureOf(
    request: Request, given: Ticket, ticket: Ticket, passed: World, locks: seq<Event>, early: seq<Event>, last: Event)
    requires ticket == given.(hush := ticket.hush) && HookRun(locks, request, given, Tests(given.locks))
    requires HushDecided(passed, request, ticket) && HookRun(early, request, ticket, EarlyNames(request, ticket))
    requires Linked(early, passed, last.before) && last == Event(Left(request.moved), last.before, last.before)
    requires ticket.holds(last.before)
    ensures Departure(locks + (early + [last]), request, ticket)
  {
    var events := locks + (early + [last]);
    HoldsIgnoresHush(locks, request, given, ticket, Tests(given.locks));
    HookRunAppend(locks, early, request, ticket, Tests(given.locks), EarlyNames(request, ticket));
    assert events[..|events| - 1] == locks + early;
    if early != [] {
      LinkedFirst(early, passed, last.before);
    }
    assert events[|locks|].before == passed;
  }

  lemma LookComesFirst(request: Request, ticket: Ticket, looks: bool)
    ensures (if looks then [Look] else []) + LateNames(request, ticket, false) == LateNames(request, ticket, looks)
  {
  }

  lemma BetweenEnds(placed: Event, look: seq<Event>, hooks: seq<Event>, last: Event)
    ensures var events := [placed] + look + (hooks + [last]); events[1..|events| - 1] == look + hooks
  {
  }

  lemma ArrivalOf(
    request: Request, ticket: Ticket, placed: Event, look: seq<Event>, hooks: seq<Event>, last: Event)
    requires placed.step == Placed(request.moved, request.destination) && request.moved in placed.before.objects
    requires placed.after == PlacedIn(placed.before, request)
    requires HookRun(look, request, ticket, if Looks(placed.after, request, ticket) then [Look] else [])
    requires HookRun(hooks, request, ticket, LateNames(request, ticket, false))
    requires last == Event(Arrived(request.moved), last.before, last.before) && ticket.holds(last.before)
    ensures Arrival([placed] + look + (hooks + [last]), request, ticket)
  {
    var events, looks := [placed] + look + (hooks + [last]), Looks(placed.after, request, ticket);
    HookRunAppend(look, hooks, request, ticket, if looks then [Look] else [], LateNames(request, ticket, false));
    LookComesFirst(request, ticket, looks);
    BetweenEnds(placed, look, hooks, last);
  }

  /** Composing a departure, the inner steps and an arrival. */
  lemma MovedBy(events: seq<Event>, request: Request, leg: Leg, inner: seq<Event>, before: World, after: World)
    requires MovedAround(events, request, leg, inner, before, after) && Commits(inner) <= 1
    ensures Commits(events) <= 1 && !EndsRefused(events)
  {
    DepartureHasNoCommits(leg.departure, request, leg.ticket);
    ArrivalHasNoCommits(leg.arrival, request, leg.ticket);
    CommitsAppend(leg.departure, inner);
    CommitsAppend(leg.departure + inner, leg.arrival);
    MovedEnds(events, request, leg, inner, before, after);
  }

  lemma CutShort(departure: seq<Event>, inner: seq<Event>, arrival: seq<Event>)
    requires Commits(departure) == 0 && Commits(inner) <= 1 && inner != [] && !EndsRefused(inner)
    requires Uncommitted(arrival)
    ensures Commits(departure + inner + arrival) <= 1 && !EndsRefused(departure + inner + arrival)
  {
    UncommittedHasNoCommits(arrival);
    CommitsAppend(departure, inner);
    CommitsAppend(departure + inner, arrival);
  }

  lemma MovedEnds(events: seq<Event>, request: Request, leg: Leg, inner: seq<Event>, before: World, after: World)
    requires MovedAround(events, request, leg, inner, before, after)
    ensures !EndsRefused(events)
  {
    assert events[|events| - 1] == leg.arrival[|leg.arrival| - 1];
  }

  // ----- The script host

  class Scripts {
    var world: World
    var outbox: seq<(int, Notice)>
    var cause: Option<int>
    var trace: seq<Event>

    constructor (w: World)
      ensures world == w && outbox == [] && cause == None && trace == []
    {
      world, outbox, cause, trace := w, [], None, [];
    }

    /** A script callback: any change to world and staged output, and any outcome. */
    method Callback(who: int, name: HookName) returns (ok: bool, ghost e: Event)
      modifies this
      ensures cause == old(cause) && trace == old(trace) + [e]
      ensures e == Event(Hook(who, cause, name), old(world), world)
    {
      var given := world;
      world := *;
      outbox := *;
      e := Event(Hook(who, cause, name), given, world);
      trace := trace + [Event(Hook(who, cause, name), given, world)];
      ok := *;
    }

    /** Note a step that leaves the world as it is. */
    method Record(step: Step) returns (ghost e: Event)
      modifies this`trace
      ensures trace == old(trace) + [e] && e == Event(step, world, world)
    {
      e := Event(step, world, world);
      trace := trace + [Event(step, world, world)];
    }

    /** A run of callbacks, each followed by the re-check of what was captured, stopping at a failure. */
    method RunHooks(request: Request, ticket: Ticket, names: seq<HookName>)
      returns (ok: bool, ghost hooks: seq<Event>)
      requires cause == Some(request.cause) && ticket.holds(world)
      modifies this
      ensures cause == old(cause) && trace == old(trace) + hooks && Linked(hooks, old(world), world)
      ensures Uncommitted(hooks)
      ensures ok ==> HookRun(hooks, request, ticket, names) && ticket.holds(world)
    {
      ok, hooks := true, [];
      for i := 0 to |names|
        invariant cause == old(cause) && trace == old(trace) + hooks && Linked(hooks, old(world), world)
        invariant HookRun(hooks, request, ticket, names[..i]) && Uncommitted(hooks)
        invariant ticket.holds(world)
      {
        ghost var e;
        ok, e := Callback(request.moved, names[i]);
        LinkedSnoc(hooks, e, old(world));
        Regroup(old(trace), hooks, [e]);
        hooks := hooks + [e];
        ok := ok && ticket.holds(world);
        if !ok {
          return;
        }
        assert names[..i + 1] == names[..i] + [names[i]];
      }
      assert names[..|names|] == names;
      ok := true;
    }

    /** Tell an actor moving something else that a lock refused it, and run the lock's own callback. */
    method Deny(request: Request, at: int) returns (ok: bool, ghost e: Event)
      modifies this
      ensures cause == old(cause) && trace == old(trace) + [e]
      ensures e == Event(Hook(request.moved, cause, LockDenied(at)), old(world), world)
    {
      if request.actor != request.moved {
        outbox := outbox + [(request.actor, PermissionDenied)];
      }
      ok, e := Callback(request.moved, LockDenied(at));
    }

    /** Test every lock in turn; the first not passed refuses, after its own callback. */
    method PassLocks(request: Request, ticket: Ticket)
      returns (r: Result<bool, MoveError>, ghost hooks: seq<Event>)
      requires cause == Some(request.cause) && ticket.holds(world)
      modifies this
      ensures cause == old(cause) && trace == old(trace) + hooks && Linked(hooks, old(world), world)
      ensures Uncommitted(hooks)
      ensures r == Ok(true) ==> HookRun(hooks, request, ticket, Tests(ticket.locks)) && ticket.holds(world)
      ensures r == Ok(false) ==> DeniedBy(hooks, request, ticket)
      ensures r.Err? ==> r.error == Failed
    {
      hooks := [];
      var locks := ticket.locks;
      for i := 0 to |locks|
        invariant cause == old(cause) && trace == old(trace) + hooks && Linked(hooks, old(world), world)
        invariant HookRun(hooks, request, ticket, Tests(locks[..i])) && Uncommitted(hooks)
        invariant ticket.holds(world)
      {
        var evaluated;
        ghost var e;
        evaluated, e := Callback(request.moved, LockTest(locks[i]));
        LinkedSnoc(hooks, e, old(world));
        Regroup(old(trace), hooks, [e]);
        TestsGrow(hooks, request, ticket, locks, i, e);
        hooks := hooks + [e];
        if !evaluated {
          return Err(Failed), hooks;
        }
        var passes: bool := *;
        if !passes {
          var told;
          told, e := Deny(request, locks[i]);
          LinkedSnoc(hooks, e, old(world));
          Regroup(old(trace), hooks, [e]);
          DeniedAfter(hooks, request, ticket, i, e);
          hooks := hooks + [e];
          return (if told then Ok(false) else Err(Failed)), hooks;
        }
        if !ticket.holds(world) {
          return Err(Failed), hooks;
        }
      }
      assert locks[..|locks|] == locks;
      return Ok(true), hooks;
    }

    /** Staged notices that touch no world state but may exceed an output budget. */
    method HomeNotices(request: Request) returns (ok: bool)
      modifies this`outbox
      ensures ok ==> |outbox| >= 3 && forall i :: |outbox| - 3 <= i < |outbox| ==>
                outbox[i] == (request.moved, HomeAgain)
    {
      var notices: seq<(int, Notice)> := *;
      outbox := outbox + notices;
      ok := *;
      if ok {
        outbox := outbox + [(request.moved, HomeAgain)];
        outbox := outbox + [(request.moved, HomeAgain)];
        outbox := outbox + [(request.moved, HomeAgain)];
      }
    }

    /** Whether the object is already there or a lock refuses it, before any departure callback runs. */
    method Admit(request: Request) returns (r: Result<Option<Ticket>, MoveError>, ghost hooks: seq<Event>)
      requires cause == Some(request.cause)
      modifies this
      ensures cause == old(cause) && trace == old(trace) + hooks && Linked(hooks, old(world), world)
      ensures Uncommitted(hooks)
      ensures r.Err? ==> r.error == Failed
      ensures r == Ok(None) ==>
                Refusal(hooks + [Event(Refused(request.moved), world, world)], request, old(world)) &&
                (hooks == [] ==> outbox == old(outbox) + [(request.actor, AlreadyThere)])
      ensures r.Ok? && r.value.Some? ==>
                var ticket := r.value.value;
                Captured(old(world), request, ticket) && ticket.holds(world) &&
                HookRun(hooks, request, ticket, Tests(ticket.locks))
    {
      hooks := [];
      if !ValidMove(world, request.moved, request.destination) {
        return Err(Failed), hooks;
      }
      if world.objects[request.moved].location == Some(request.destination) {
        outbox := outbox + [(request.actor, AlreadyThere)];
        return Ok(None), hooks;
      }
      var ticket := Issue(world, request);
      if ticket.None? {
        return Err(Failed), hooks;
      }
      var passed;
      passed, hooks := PassLocks(request, ticket.value);
      if passed.Err? {
        return Err(Failed), hooks;
      }
      if !passed.value {
        ghost var events := hooks + [Event(Refused(request.moved), world, world)];
        assert events[..|hooks|] == hooks;
        return Ok(None), hooks;
      }
      return Ok(ticket), hooks;
    }

    /** Decide the hush, run the departure callbacks and leave. */
    method Leave(request: Request, given: Ticket, ghost locks: seq<Event>)
      returns (r: Result<Ticket, MoveError>, ghost events: seq<Event>)
      requires cause == Some(request.cause) && given.holds(world) && request.moved in world.objects
      requires HookRun(locks, request, given, Tests(given.locks))
      modifies this
      ensures cause == old(cause) && trace == old(trace) + events && Linked(events, old(world), world)
      ensures r.Err? ==> r.error == Failed && Uncommitted(events)
      ensures r.Ok? ==> Departure(locks + events, request, r.value) && r.value == given.(hush := r.value.hush)
    {
      var ticket := given.(hush := request.route.SilentTeleport? ||
                                   (request.route.Teleport? && Dark in world.objects[request.moved].flags));
      var ok, early := RunHooks(request, ticket, EarlyNames(request, ticket));
      if !ok {
        return Err(Failed), early;
      }
      var last := Record(Left(request.moved));
      LinkedSnoc(early, last, old(world));
      DepartureOf(request, given, ticket, old(world), locks, early, last);
      Regroup(old(trace), early, [last]);
      return Ok(ticket), early + [last];
    }

    /** Locks, departure callbacks and the ticket the arrival will need, or a refusal. */
    method Depart(request: Request) returns (r: Result<Option<Ticket>, MoveError>, ghost events: seq<Event>)
      requires cause == Some(request.cause)
      modifies this
      ensures cause == old(cause) && trace == old(trace) + events && Linked(events, old(world), world)
      ensures r.Err? ==> r.error == Failed && Uncommitted(events)
      ensures r == Ok(None) ==> Refusal(events, request, old(world))
      ensures r == Ok(None) && |events| == 1 ==>
                world == old(world) && outbox == old(outbox) + [(request.actor, AlreadyThere)]
      ensures r.Ok? && r.value.Some? ==>
                Departure(events, request, r.value.value) && Captured(old(world), request, r.value.value)
    {
      var admitted, locks := Admit(request);
      if admitted.Err? {
        return Err(Failed), locks;
      }
      if admitted.value.None? {
        var last := Record(Refused(request.moved));
        LinkedSnoc(locks, last, old(world));
        Regroup(old(trace), locks, [last]);
        return Ok(None), locks + [last];
      }
      if request.route.HomeRoute? {
        var told := HomeNotices(request);
        if !told {
          return Err(Failed), locks;
        }
      }
      ghost var passed := world;
      CapturedExactly(old(world), request, admitted.value.value, world);
      var left, early := Leave(request, admitted.value.value, locks);
      LinkedAppend(locks, early, old(world), passed, world);
      Regroup(old(trace), locks, early);
      return (if left.Ok? then Ok(Some(left.value)) else Err(Failed)), locks + early;
    }

    /** Place the object, let a player look around, and revalidate. */
    method Place(request: Request, ticket: Ticket) returns (ok: bool, ghost placed: Event, ghost look: seq<Event>)
      requires cause == Some(request.cause) && request.moved in world.objects
      modifies this
      ensures cause == old(cause) && trace == old(trace) + [placed] + look
      ensures placed == Event(Placed(request.moved, request.destination), old(world), PlacedIn(old(world), request))
      ensures Linked(look, placed.after, world)
      ensures HookRun(look, request, ticket, if Looks(placed.after, request, ticket) then [Look] else [])
      ensures ok ==> ticket.holds(world)
    {
      ok, look := true, [];
      var given := world;
      world := world.(objects := world.objects[request.moved :=
        world.objects[request.moved].(location := Some(request.destination))]);
      placed := Event(Placed(request.moved, request.destination), given, world);
      trace := trace + [Event(Placed(request.moved, request.destination), given, world)];
      var session := request.session.Some? && request.actor == request.moved;
      if ticket.kind.Player? && (session || Connected in world.objects[request.moved].flags) {
        ghost var e;
        ok, e := Callback(request.moved, Look);
        LinkedOne(e);
        look := [e];
      }
      ok := ok && ticket.holds(world);
    }

    /** The arrival callbacks after the look, the whole-world check, and the actor's notice. */
    method RunArrivalHooks(request: Request, ticket: Ticket) returns (ok: bool, ghost hooks: seq<Event>)
      requires cause == Some(request.cause) && ticket.holds(world)
      modifies this
      ensures cause == old(cause) && trace == old(trace) + hooks && Linked(hooks, old(world), world)
      ensures Uncommitted(hooks)
      ensures ok ==> HookRun(hooks, request, ticket, LateNames(request, ticket, false)) &&
                     ticket.holds(world) && Told(outbox, request, ticket.kind)
    {
      ok, hooks := RunHooks(request, ticket, LateNames(request, ticket, false));
      var valid: bool := *;
      ok := ok && valid;
      if ok && request.moved != request.actor && !request.route.Generic? && !request.route.SilentTeleport? {
        outbox := outbox + [(request.actor, if ticket.kind.Exit? then ExitTeleported else Teleported)];
      }
    }

    /** Place the object, then run the arrival callbacks. */
    method Arrive(request: Request, ticket: Ticket) returns (r: Result<(), MoveError>, ghost events: seq<Event>)
      requires cause == Some(request.cause)
      modifies this
      ensures cause == old(cause) && trace == old(trace) + events && Linked(events, old(world), world)
      ensures r.Err? ==> r.error == Failed && Uncommitted(events)
      ensures r.Ok? ==> Arrival(events, request, ticket) && ticket.holds(world) &&
                        Told(outbox, request, ticket.kind)
    {
      if request.moved !in world.objects {
        return Err(Failed), [];
      }
      var ok, placed, look := Place(request, ticket);
      LinkedOne(placed);
      LinkedAppend([placed], look, old(world), placed.after, world);
      events := [placed] + look;
      Regroup(old(trace), [placed], look);
      if !ok {
        return Err(Failed), events;
      }
      ghost var seen := world;
      ghost var hooks;
      r, hooks := Settle(request, ticket, placed, look);
      LinkedAppend(events, hooks, old(world), seen, world);
      Regroup(old(trace), events, hooks);
      events := events + hooks;
    }

    /** The rest of an arrival, from the look on. */
    method Settle(request: Request, ticket: Ticket, ghost placed: Event, ghost look: seq<Event>)
      returns (r: Result<(), MoveError>, ghost events: seq<Event>)
      requires cause == Some(request.cause) && ticket.holds(world)
      requires placed.step == Placed(request.moved, request.destination) && request.moved in placed.before.objects
      requires placed.after == PlacedIn(placed.before, request)
      requires HookRun(look, request, ticket, if Looks(placed.after, request, ticket) then [Look] else [])
      modifies this
      ensures cause == old(cause) && trace == old(trace) + events && Linked(events, old(world), world)
      ensures r.Err? ==> r.error == Failed && Uncommitted(events)
      ensures r.Ok? ==> Arrival([placed] + look + events, request, ticket) && ticket.holds(world) &&
                        Told(outbox, request, ticket.kind)
    {
      var ok, hooks := RunArrivalHooks(request, ticket);
      if !ok {
        return Err(Failed), hooks;
      }
      var last := Record(Arrived(request.moved));
      LinkedSnoc(hooks, last, old(world));
      ArrivalOf(request, ticket, placed, look, hooks, last);
      Regroup(old(trace), hooks, [last]);
      return Ok(()), hooks + [last];
    }

    /** The domain placement: any change to the world, and any outcome. */
    method Relocate() returns (ok: bool, ghost e: Event)
      modifies this`world, this`trace
      ensures trace == old(trace) + [e] && e == Event(Commit, old(world), world)
    {
      var given := world;
      world := *;
      e := Event(Commit, given, world);
      trace := trace + [Event(Commit, given, world)];
      ok := *;
    }

    /** The relocation and the arrival of a participant that has departed. */
    method Complete(request: Request, ticket: Ticket, ghost departure: seq<Event>, ghost before: World)
      returns (r: Result<(), MoveError>, ghost events: seq<Event>, ghost leg: Leg, ghost commit: Event)
      requires cause == Some(request.cause)
      requires Departure(departure, request, ticket) && Linked(departure, before, world)
      modifies this
      ensures cause == old(cause) && trace == old(trace) + events && Linked(events, old(world), world)
      ensures Commits(departure + events) <= 1 && !EndsRefused(departure + events)
      ensures r.Err? ==> r.error == Failed
      ensures r.Ok? ==>
                commit.step == Commit && MovedAround(departure + events, request, leg, [commit], before, world) &&
                leg.ticket == ticket && ticket.holds(world) && Told(outbox, request, ticket.kind)
    {
      DepartureHasNoCommits(departure, request, ticket);
      leg := Leg(ticket, departure, [], world, world);
      var ok;
      ok, commit := Relocate();
      LinkedOne(commit);
      if !ok {
        CommitsAppend(departure, [commit]);
        return Err(Failed), [commit], leg, commit;
      }
      ghost var moved, arrival := world, [];
      r, arrival := Arrive(request, ticket);
      LinkedAppend([commit], arrival, old(world), moved, world);
      Regroup(old(trace), [commit], arrival);
      Regroup(departure, [commit], arrival);
      events := [commit] + arrival;
      if r.Err? {
        CutShort(departure, [commit], arrival);
        return;
      }
      leg := Leg(ticket, departure, arrival, old(world), moved);
      MovedBy(departure + events, request, leg, [commit], before, world);
    }

    /** Movement of one object around a domain relocation. */
    method Apply(request: Request)
      returns (r: Result<(), MoveError>, relocated: bool, ghost events: seq<Event>, ghost leg: Leg, ghost commit: Event)
      requires cause == Some(request.cause)
      modifies this
      ensures cause == old(cause) && trace == old(trace) + events && Linked(events, old(world), world)
      ensures Commits(events) <= 1
      ensures r.Err? ==> r.error == Failed && !EndsRefused(events)
      ensures r.Ok? && !relocated ==> Refusal(events, request, old(world))
      ensures r.Ok? && !relocated && |events| == 1 ==>
                world == old(world) && outbox == old(outbox) + [(request.actor, AlreadyThere)]
      ensures r.Ok? && relocated ==>
                commit.step == Commit && MovedAround(events, request, leg, [commit], old(world), world) &&
                Captured(old(world), request, leg.ticket) && leg.ticket.holds(world) &&
                Told(outbox, request, leg.ticket.kind)
    {
      leg, commit := NO_LEG, Event(Commit, world, world);
      var departed;
      departed, events := Depart(request);
      if departed.Err? {
        UncommittedHasNoCommits(events);
        return Err(Failed), false, events, leg, commit;
      }
      if departed.value.None? {
        RefusalHasNoCommits(events, request, old(world));
        return Ok(()), false, events, leg, commit;
      }
      ghost var left, rest := world, [];
      r, rest, leg, commit := Complete(request, departed.value.value, events, old(world));
      LinkedAppend(events, rest, old(world), left, world);
      Regroup(old(trace), events, rest);
      relocated, events := r.Ok?, events + rest;
    }

    /** The whole movement of the second participant, and the arrival of the first. */
    method CompletePair(
      first: Request, second: Request, ticket: Ticket, ghost departure: seq<Event>, ghost before: World)
      returns (r: Result<(), MoveError>, ghost events: seq<Event>, ghost outer: Leg, ghost inner: Leg,
               ghost commit: Event)
      requires cause == Some(first.cause)
      requires Departure(departure, first, ticket) && Linked(departure, before, world)
      modifies this
      ensures cause == old(cause) && trace == old(trace) + events && Linked(events, old(world), world)
      ensures Commits(departure + events) <= 1
      ensures r.Err? && r.error.BatchDenied? ==> Commits(departure + events) == 0
      ensures EndsRefused(departure + events) <==> r == Err(BatchDenied)
      ensures r.Ok? ==>
                PairMoved(departure + events, first, second, outer, inner, commit, before, world) &&
                Captured(outer.from, second, inner.ticket) && outer.ticket == ticket && ticket.holds(world) &&
                Told(outbox, first, ticket.kind)
    {
      DepartureHasNoCommits(departure, first, ticket);
      outer := NO_LEG;
      cause := Some(second.cause);
      var applied, reached;
      ghost var middle;
      applied, reached, middle, inner, commit := Apply(second);
      cause := Some(first.cause);
      events := middle;
      CommitsAppend(departure, middle);
      if applied.Err? {
        return Err(Failed), middle, outer, inner, commit;
      }
      if !reached {
        RefusalHasNoCommits(middle, second, old(world));
        return Err(BatchDenied), middle, outer, inner, commit;
      }
      ghost var moved, arrival := world, [];
      MovedEnds(middle, second, inner, [commit], old(world), moved);
      r, arrival := Arrive(first, ticket);
      LinkedAppend(middle, arrival, old(world), moved, world);
      Regroup(old(trace), middle, arrival);
      Regroup(departure, middle, arrival);
      events := middle + arrival;
      if r.Err? {
        CutShort(departure, middle, arrival);
        return;
      }
      outer := Leg(ticket, departure, arrival, old(world), moved);
      MovedBy(departure + events, first, outer, middle, before, world);
    }

    /** Movement of the first participant around the whole movement of the second. */
    method ApplyPair(first: Request, second: Request)
      returns (r: Result<(), MoveError>, relocated: bool, ghost events: seq<Event>, ghost outer: Leg,
               ghost inner: Leg, ghost commit: Event)
      requires cause == Some(first.cause)
      modifies this
      ensures cause == old(cause) && trace == old(trace) + events
      ensures Commits(events) <= 1
      ensures r.Err? && r.error.BatchDenied? ==> Commits(events) == 0
      ensures EndsRefused(events) <==> r == Err(BatchDenied) || (r.Ok? && !relocated)
      ensures r.Ok? && !relocated ==> Commits(events) == 0
      ensures r.Ok? && relocated ==>
                PairMoved(events, first, second, outer, inner, commit, old(world), world) &&
                Captured(old(world), first, outer.ticket) && Captured(outer.from, second, inner.ticket) &&
                outer.ticket.holds(world) && Told(outbox, first, outer.ticket.kind)
    {
      outer, inner, commit := NO_LEG, NO_LEG, Event(Commit, world, world);
      var departed;
      departed, events := Depart(first);
      if departed.Err? {
        UncommittedHasNoCommits(events);
        return Err(Failed), false, events, outer, inner, commit;
      }
      if departed.value.None? {
        RefusalHasNoCommits(events, first, old(world));
        return Ok(()), false, events, outer, inner, commit;
      }
      ghost var rest;
      r, rest, outer, inner, commit := CompletePair(first, second, departed.value.value, events, old(world));
      Regroup(old(trace), events, rest);
      relocated, events := r.Ok?, events + rest;
    }

    /**
     * Run paired movement as one transaction. Only a complete pair keeps its effects; a refusal,
     * a failed hook or a failed commit restores the world and the staged output.
     */
    method PerformPair(first: Request, second: Request)
      returns (r: Result<bool, MoveError>, ghost events: seq<Event>, ghost outer: Leg, ghost inner: Leg,
               ghost commit: Event)
      modifies this
      ensures trace == old(trace) + events && cause == old(cause) && Commits(events) <= 1
      ensures r == Ok(true) ==>
                PairMoved(events, first, second, outer, inner, commit, old(world), world) &&
                Captured(old(world), first, outer.ticket) && Captured(outer.from, second, inner.ticket) &&
                Upheld(old(world), world, first) && Told(outbox, first, outer.ticket.kind)
      ensures r != Ok(true) ==> world == old(world) && outbox == old(outbox)
      ensures r == Ok(false) <==> EndsRefused(events)
      ensures r == Ok(false) ==> Commits(events) == 0
      ensures r.Err? ==> r.error == Failed
      ensures first.moved == second.moved ==> r == Err(Failed) && events == []
    {
      outer, inner, commit := NO_LEG, NO_LEG, Event(Commit, world, world);
      if first.moved == second.moved {
        return Err(Failed), [], outer, inner, commit;
      }
      var checkpoint, staged, previous := world, outbox, cause;
      cause := Some(first.cause);
      var result, relocated;
      result, relocated, events, outer, inner, commit := ApplyPair(first, second);
      cause := previous;
      if result.Ok? && !relocated {
        result := Err(BatchDenied);
      }
      if result.Ok? {
        CapturedExactly(old(world), first, outer.ticket, world);
        return Ok(true), events, outer, inner, commit;
      }
      world, outbox := checkpoint, staged;
      r := if result.error.BatchDenied? then Ok(false) else Err(result.error);
    }

    /** Run one movement as a transaction; a refusal keeps its notices but commits nothing. */
    method Perform(request: Request)
      returns (r: Result<(), MoveError>, relocated: bool, ghost events: seq<Event>, ghost leg: Leg, ghost commit: Event)
      modifies this
      ensures trace == old(trace) + events && cause == old(cause) && Commits(events) <= 1
      ensures r.Ok? && !relocated ==> Refusal(events, request, old(world)) && Linked(events, old(world), world)
      ensures r.Ok? && !relocated && |events| == 1 ==>
                world == old(world) && outbox == old(outbox) + [(request.actor, AlreadyThere)]
      ensures r.Ok? && relocated ==>
                commit.step == Commit && MovedAround(events, request, leg, [commit], old(world), world) &&
                Captured(old(world), request, leg.ticket) && Upheld(old(world), world, request) &&
                Told(outbox, request, leg.ticket.kind)
      ensures r.Err? ==> world == old(world) && outbox == old(outbox) && !EndsRefused(events)
    {
      var checkpoint, staged, previous := world, outbox, cause;
      cause := Some(request.cause);
      r, relocated, events, leg, commit := Apply(request);
      cause := previous;
      if r.Err? {
        world, outbox := checkpoint, staged;
      } else if relocated {
        CapturedExactly(old(world), request, leg.ticket, world);
      }
    }
  }

  // ----- What a completed pair means

  function Milestones(events: seq<Event>): seq<Step> {
    if events == [] then []
    else (if events[0].step.Hook? then [] else [events[0].step]) + Milestones(events[1..])
  }

  lemma {:induction false} MilestonesAppend(a: seq<Event>, b: seq<Event>)
    ensures Milestones(a + b) == Milestones(a) + Milestones(b)
  {
    if a == [] {
      assert a + b == b;
    } else {
      assert (a + b)[1..] == a[1..] + b;
      MilestonesAppend(a[1..], b);
    }
  }

  lemma {:induction false} HooksAreNoMilestones(events: seq<Event>)
    requires forall e :: e in events ==> e.step.Hook?
    ensures Milestones(events) == []
  {
    if events != [] {
      HooksAreNoMilestones(events[1..]);
    }
  }

  lemma OneMilestone(e: Event)
    requires !e.step.Hook?
    ensures Milestones([e]) == [e.step]
  {
    assert [e][1..] == [];
  }

  lemma DepartureMilestones(events: seq<Event>, request: Request, ticket: Ticket)
    requires Departure(events, request, ticket)
    ensures Milestones(events) == [Left(request.moved)]
  {
    var n := |events| - 1;
    assert events == events[..n] + [events[n]];
    MilestonesAppend(events[..n], [events[n]]);
    HooksAreNoMilestones(events[..n]);
    OneMilestone(events[n]);
  }

  lemma ArrivalMilestones(events: seq<Event>, request: Request, ticket: Ticket)
    requires Arrival(events, request, ticket)
    ensures Milestones(events) == [Placed(request.moved, request.destination), Arrived(request.moved)]
  {
    var n := |events| - 1;
    assert events == [events[0]] + events[1..n] + [events[n]];
    MilestonesAppend([events[0]] + events[1..n], [events[n]]);
    MilestonesAppend([events[0]], events[1..n]);
    HooksAreNoMilestones(events[1..n]);
    OneMilestone(events[0]);
    OneMilestone(events[n]);
  }

  lemma MovedMilestones(
    events: seq<Event>, request: Request, leg: Leg, inner: seq<Event>, before: World, after: World)
    requires MovedAround(events, request, leg, inner, before, after)
    ensures Milestones(events) ==
            [Left(request.moved)] + Milestones(inner) +
            [Placed(request.moved, request.destination), Arrived(request.moved)]
  {
    MilestonesAppend(leg.departure + inner, leg.arrival);
    MilestonesAppend(leg.departure, inner);
    DepartureMilestones(leg.departure, request, leg.ticket);
    ArrivalMilestones(leg.arrival, request, leg.ticket);
  }

  /** Callbacks aside, a completed pair is exactly these seven steps in this order. */
  lemma PairMilestones(
    events: seq<Event>, first: Request, second: Request, outer: Leg, inner: Leg, commit: Event, before: World,
    after: World)
    requires PairMoved(events, first, second, outer, inner, commit, before, after)
    ensures Milestones(events) ==
            [Left(first.moved), Left(second.moved), Commit,
             Placed(second.moved, second.destination), Arrived(second.moved),
             Placed(first.moved, first.destination), Arrived(first.moved)]
  {
    var middle := inner.departure + [commit] + inner.arrival;
    MovedMilestones(middle, second, inner, [commit], outer.from, outer.to);
    OneMilestone(commit);
    MovedMilestones(events, first, outer, middle, before, after);
  }

  // ----- Scripts that change nothing

  /** Callbacks that leave the world as they found it. */
  ghost predicate Quiet(events: seq<Event>) { forall e :: e in events && e.step.Hook? ==> e.after == e.before }

  lemma {:induction false} QuietStaysPut(events: seq<Event>, from: World, to: World)
    requires Linked(events, from, to) && forall e :: e in events ==> e.after == e.before
    ensures from == to
  {
    if events != [] {
      QuietStaysPut(events[..|events| - 1], from, events[|events| - 1].before);
    }
  }

  lemma {:induction false} LinkedSplit(a: seq<Event>, b: seq<Event>, from: World, to: World) returns (mid: World)
    requires Linked(a + b, from, to)
    ensures Linked(a, from, mid) && Linked(b, mid, to)
    decreases |b|
  {
    if b == [] {
      assert a + b == a;
      mid := to;
    } else {
      assert (a + b)[..|a + b| - 1] == a + b[..|b| - 1];
      mid := LinkedSplit(a, b[..|b| - 1], from, b[|b| - 1].before);
    }
  }

  lemma QuietDeparture(events: seq<Event>, request: Request, ticket: Ticket, before: World, to: World)
    requires Departure(events, request, ticket) && Linked(events, before, to) && Quiet(events)
    ensures to == before
  {
    var n := |events| - 1;
    assert events == events[..n] + [events[n]];
    QuietStaysPut(events, before, to);
  }

  lemma QuietArrival(events: seq<Event>, request: Request, ticket: Ticket, from: World, to: World)
    requires Arrival(events, request, ticket) && Linked(events, from, to) && Quiet(events)
    ensures request.moved in from.objects && to == PlacedIn(from, request)
  {
    var n := |events| - 1;
    var placed, rest := [events[0]], events[1..];
    assert events == placed + rest && rest == events[1..n] + [events[n]];
    var mid := LinkedSplit(placed, rest, from, to);
    assert placed[..0] == [] && mid == events[0].after && from == events[0].before;
    QuietStaysPut(rest, mid, to);
  }

  lemma QuietParts(a: seq<Event>, b: seq<Event>, c: seq<Event>)
    requires Quiet(a + b + c)
    ensures Quiet(a) && Quiet(b) && Quiet(c)
  {
    assert forall e :: e in a || e in b || e in c ==> e in a + b + c;
  }

  /** Then a movement changes the world by its commit and by placing the mover, and by nothing else. */
  lemma QuietMove(events: seq<Event>, request: Request, leg: Leg, inner: seq<Event>, before: World, after: World)
    requires MovedAround(events, request, leg, inner, before, after) && Quiet(events)
    ensures leg.from == before && request.moved in leg.to.objects && after == PlacedIn(leg.to, request)
  {
    QuietParts(leg.departure, inner, leg.arrival);
    QuietDeparture(leg.departure, request, leg.ticket, before, leg.from);
    QuietArrival(leg.arrival, request, leg.ticket, leg.to, after);
  }

  /** And a pair by its commit and by placing the second mover and then the first. */
  lemma QuietPair(
    events: seq<Event>, first: Request, second: Request, outer: Leg, inner: Leg, commit: Event, before: World,
    after: World)
    requires PairMoved(events, first, second, outer, inner, commit, before, after) && Quiet(events)
    ensures commit.before == before && second.moved in commit.after.objects
    ensures var placed := PlacedIn(commit.after, second);
            first.moved in placed.objects && after == PlacedIn(placed, first)
  {
    var middle := inner.departure + [commit] + inner.arrival;
    QuietMove(events, first, outer, middle, before, after);
    QuietParts(outer.departure, middle, outer.arrival);
    QuietMove(middle, second, inner, [commit], outer.from, outer.to);
    CommitLinks(commit, inner.from, inner.to);
  }

  lemma CommitLinks(commit: Event, from: World, to: World)
    requires Linked([commit], from, to)
    ensures commit.before == from && commit.after == to
  {
    assert [commit][..0] == [];
  }
}
