/** The bounded record a piece keeps of hexes it struck, against the unbounded history of its strikes. */
module ArtilleryRegistration {
  import opened Prelude
  import opened Artillery

  /** A map and a hex on it. */
  datatype Post = Post(ground: int, hex: Hex)

  /** Struck hexes, oldest first, and the post held since the first of them. */
  datatype Registration = Registration(post: Option<Post>, hexes: seq<Hex>)

  const MAXIMUM_REGISTERED := 64
  const NOTHING := Registration(None, [])

  predicate Valid(r: Registration) { |r.hexes| <= MAXIMUM_REGISTERED && (r.post.Some? <==> r.hexes != []) }

  /** The record after a strike: started afresh at a new post, unchanged by a repeat or off the battlefield. */
  function Struck(r: Registration, at: Option<Post>, hex: Hex): Registration {
    if at.None? then r else
      var held := if r.post == at then r.hexes else [];
      if hex in held then Registration(at, held)
      else Registration(at, (if |held| == MAXIMUM_REGISTERED then held[1..] else held) + [hex])
  }

  /** A second passes: spending movement or leaving the post forgets everything. */
  function Elapsed(r: Registration, at: Option<Post>, spending: bool): Registration {
    if r.post.Some? && (r.post != at || spending) then NOTHING else r
  }

  class Piece {
    var registration: Registration

    constructor ()
      ensures registration == NOTHING
    {
      registration := NOTHING;
    }

    method Register(at: Option<Post>, hex: Hex)
      modifies this
      ensures registration == Struck(old(registration), at, hex)
    {
      if at.None? {
        return;
      }
      if registration.post != at {
        registration := NOTHING;
      }
      registration := registration.(post := at);
      if hex in registration.hexes {
        return;
      }
      if |registration.hexes| == MAXIMUM_REGISTERED {
        registration := registration.(hexes := registration.hexes[1..]);
      }
      registration := registration.(hexes := registration.hexes + [hex]);
    }

    method Advance(at: Option<Post>, spending: bool)
      modifies this
      ensures registration == Elapsed(old(registration), at, spending)
    {
      if registration.post.Some? && (registration.post != at || spending) {
        registration := NOTHING;
      }
    }
  }

  // ----- Runs

  datatype Event = Strike(at: Option<Post>, hex: Hex) | Second(at: Option<Post>, spending: bool)

  function After(events: seq<Event>): Registration {
    if events == [] then NOTHING else
      var r := After(events[..|events| - 1]);
      match events[|events| - 1]
      case Strike(at, hex) => Struck(r, at, hex)
      case Second(at, spending) => Elapsed(r, at, spending)
  }

  /** Unbounded bookkeeping: the post held, and every hex struck from it since the last clearing. */
  datatype History = History(post: Option<Post>, struck: seq<Hex>)

  function Remembered(events: seq<Event>): History {
    if events == [] then History(None, []) else
      var h := Remembered(events[..|events| - 1]);
      match events[|events| - 1]
      case Strike(at, hex) =>
        if at.None? then h else History(at, (if h.post == at then h.struck else []) + [hex])
      case Second(at, spending) =>
        if h.post.Some? && (h.post != at || spending) then History(None, []) else h
  }

  /** Unbounded bookkeeping of registrations: a strike is logged unless it is among the last 64 logged. */
  datatype Log = Log(post: Option<Post>, hexes: seq<Hex>)

  function Recent(hexes: seq<Hex>): seq<Hex> { if |hexes| <= 64 then hexes else hexes[|hexes| - 64..] }

  function Logged(events: seq<Event>): Log {
    if events == [] then Log(None, []) else
      var l := Logged(events[..|events| - 1]);
      match events[|events| - 1]
      case Strike(at, hex) =>
        if at.None? then l else
          var held := if l.post == at then l.hexes else [];
          Log(at, if hex in Recent(held) then held else held + [hex])
      case Second(at, spending) =>
        if l.post.Some? && (l.post != at || spending) then Log(None, []) else l
  }

  lemma RecentGrows(held: seq<Hex>, hex: Hex)
    ensures Recent(held + [hex]) == (if |Recent(held)| == 64 then Recent(held)[1..] else Recent(held)) + [hex]
  {
  }

  /** Over every run the record is the last 64 registrations, in order: the oldest gives way. */
  lemma {:induction false} RecordIsMostRecent(events: seq<Event>)
    ensures After(events) == Registration(Logged(events).post, Recent(Logged(events).hexes))
  {
    if events != [] {
      var before, last := events[..|events| - 1], events[|events| - 1];
      RecordIsMostRecent(before);
      if last.Strike? && last.at.Some? {
        var l := Logged(before);
        RecentGrows(if l.post == last.at then l.hexes else [], last.hex);
      }
    }
  }

  /** The bounded registration against the unbounded history. */
  ghost predicate Tracks(r: Registration, h: History) {
    Valid(r) && Distinct(r.hexes) && r.post == h.post && (r.hexes == [] <==> h.struck == []) &&
    Elements(r.hexes) <= Elements(h.struck) &&
    (h.struck != [] ==> h.struck[|h.struck| - 1] in r.hexes) &&
    (|Elements(h.struck)| <= MAXIMUM_REGISTERED ==> Elements(r.hexes) == Elements(h.struck))
  }

  lemma {:induction false} DistinctSize(s: seq<Hex>)
    requires Distinct(s)
    ensures |Elements(s)| == |s|
  {
    if s != [] {
      DistinctSize(s[1..]);
      assert Elements(s) == {s[0]} + Elements(s[1..]);
    }
  }

  lemma RepeatedStrike(hexes: seq<Hex>, struck: seq<Hex>, post: Post, hex: Hex)
    requires Tracks(Registration(Some(post), hexes), History(Some(post), struck)) && hex in hexes
    ensures Tracks(Registration(Some(post), hexes), History(Some(post), struck + [hex]))
  {
    assert hex in Elements(hexes);
    assert Elements(struck + [hex]) == Elements(struck);
  }

  lemma RoomForNew(hexes: seq<Hex>, struck: seq<Hex>, hex: Hex)
    requires Distinct(hexes) && hex !in hexes && |Elements(struck + [hex])| <= MAXIMUM_REGISTERED
    requires |Elements(struck)| <= MAXIMUM_REGISTERED ==> Elements(hexes) == Elements(struck)
    ensures Elements(hexes) == Elements(struck) && |hexes| < MAXIMUM_REGISTERED
  {
    assert Elements(struck + [hex]) == Elements(struck) + {hex};
    SizeOfPart(Elements(struck), Elements(struck + [hex]));
    DistinctSize(hexes);
    assert hex !in Elements(struck);
  }

  lemma KeptDistinct(hexes: seq<Hex>, kept: seq<Hex>, hex: Hex)
    requires Distinct(hexes) && hex !in hexes && (kept == hexes || (hexes != [] && kept == hexes[1..]))
    ensures Distinct(kept + [hex]) && Elements(kept) <= Elements(hexes)
  {
  }

  /** A new hex pushes out the oldest only when 64 others are already registered. */
  lemma NewStrike(hexes: seq<Hex>, kept: seq<Hex>, struck: seq<Hex>, hex: Hex)
    requires Distinct(hexes) && |hexes| <= MAXIMUM_REGISTERED && hex !in hexes
    requires kept == if |hexes| == MAXIMUM_REGISTERED then hexes[1..] else hexes
    requires Elements(hexes) <= Elements(struck)
    requires |Elements(struck)| <= MAXIMUM_REGISTERED ==> Elements(hexes) == Elements(struck)
    ensures Distinct(kept + [hex]) && Elements(kept + [hex]) <= Elements(struck + [hex])
    ensures |Elements(struck + [hex])| <= MAXIMUM_REGISTERED ==> Elements(kept + [hex]) == Elements(struck + [hex])
  {
    KeptDistinct(hexes, kept, hex);
    assert Elements(struck + [hex]) == Elements(struck) + {hex};
    assert Elements(kept + [hex]) == Elements(kept) + {hex};
    if |Elements(struck + [hex])| <= MAXIMUM_REGISTERED {
      RoomForNew(hexes, struck, hex);
    }
  }

  lemma StrikeTracks(hexes: seq<Hex>, struck: seq<Hex>, post: Post, hex: Hex)
    requires Tracks(Registration(if hexes == [] then None else Some(post), hexes),
                    History(if struck == [] then None else Some(post), struck))
    ensures Tracks(Struck(Registration(Some(post), hexes), Some(post), hex), History(Some(post), struck + [hex]))
  {
    if hex in hexes {
      RepeatedStrike(hexes, struck, post, hex);
    } else {
      NewStrike(hexes, if |hexes| == MAXIMUM_REGISTERED then hexes[1..] else hexes, struck, hex);
    }
  }

  /**
   * Over every run of strikes and seconds, registered hexes are distinct, at most 64 and all
   * struck from the current post since the last clearing; the last strike is always registered,
   * and while no more than 64 different hexes were struck, all of them are.
   */
  lemma {:induction false} EveryRunTracks(events: seq<Event>)
    ensures Tracks(After(events), Remembered(events))
  {
    if events != [] {
      var before, last := events[..|events| - 1], events[|events| - 1];
      var r, h := After(before), Remembered(before);
      EveryRunTracks(before);
      if last.Strike? && last.at.Some? {
        if r.post == last.at {
          StrikeTracks(r.hexes, h.struck, last.at.value, last.hex);
        } else {
          StrikeTracks([], [], last.at.value, last.hex);
        }
      }
    }
  }
}
