/** Ammunition draws: eligible bins in feed-priority order, capped by the rounds requested. */
module AmmunitionFeed {
  import opened Prelude
  import opened Sorting

  /** One bin of a loadout, in loadout order. */
  datatype Bin = Bin(weapon: nat, mode: nat, section: nat, slot: nat, rounds: nat, unavailable: bool)

  /** An eligible bin under its feed key: locality first, then canonical location. */
  datatype Source = Source(index: nat, priority: nat, section: nat, slot: nat, rounds: nat)

  datatype Draw = Draw(index: nat, rounds: nat)

  datatype Mount = Mount(weapon: nat, mode: nat, section: nat, preferred: Option<nat>)

  // ----- Eligible bins

  /** The selected section first, then the mount's own, then everywhere else. */
  function Priority(preferred: Option<nat>, mount: nat, bin: nat): nat {
    if preferred == Some(bin) then 0 else if mount == bin then 1 else 2
  }

  predicate Compatible(mount: Mount, bin: Bin) {
    bin.weapon == mount.weapon && bin.mode == mount.mode && bin.rounds > 0 && !bin.unavailable
  }

  function SourceOf(mount: Mount, bins: seq<Bin>, i: nat): Source
    requires i < |bins|
  {
    Source(i, Priority(mount.preferred, mount.section, bins[i].section), bins[i].section, bins[i].slot, bins[i].rounds)
  }

  function Eligible(mount: Mount, bins: seq<Bin>, n: nat): seq<Source>
    requires n <= |bins|
  {
    if n == 0 then [] else
      Eligible(mount, bins, n - 1) +
      if Compatible(mount, bins[n - 1]) then [SourceOf(mount, bins, n - 1)] else []
  }

  ghost predicate InLoadoutOrder(r: seq<Source>) { forall i, j :: 0 <= i < j < |r| ==> r[i].index < r[j].index }

  lemma {:induction false} EligibleFacts(mount: Mount, bins: seq<Bin>, n: nat)
    requires n <= |bins|
    ensures forall s :: s in Eligible(mount, bins, n) <==>
              s.index < n && bins[s.index].weapon == mount.weapon && bins[s.index].mode == mount.mode &&
              bins[s.index].rounds > 0 && !bins[s.index].unavailable && s == SourceOf(mount, bins, s.index)
    ensures InLoadoutOrder(Eligible(mount, bins, n))
  {
    if n > 0 {
      EligibleFacts(mount, bins, n - 1);
      var r := Eligible(mount, bins, n - 1);
      assert forall i :: 0 <= i < |r| ==> r[i] in r && r[i].index < n - 1;
    }
  }

  // ----- Planning

  /** Feed order on keys. */
  predicate Before(a: Source, b: Source) {
    a.priority < b.priority ||
    (a.priority == b.priority && (a.section < b.section || (a.section == b.section && a.slot <= b.slot)))
  }

  lemma BeforeIsTotal()
    ensures Total(Before)
  {
  }

  function Drawn(sources: seq<Source>, rounds: nat): seq<Draw> {
    if sources == [] || rounds == 0 then [] else
      var take := Smaller(sources[0].rounds, rounds);
      [Draw(sources[0].index, take)] + Drawn(sources[1..], rounds - take)
  }

  function Plan(sources: seq<Source>, rounds: nat): seq<Draw> { Drawn(Sort(Before, sources), rounds) }

  /** Order the bins, then draw from each until the request is met. */
  method PlanDraws(sources: seq<Source>, rounds: nat) returns (draws: seq<Draw>)
    ensures draws == Plan(sources, rounds)
  {
    var ordered := Sort(Before, sources);
    var remaining: nat := rounds;
    draws := [];
    for i := 0 to |ordered|
      invariant Plan(sources, rounds) == draws + Drawn(ordered[i..], remaining)
    {
      if remaining == 0 {
        break;
      }
      assert ordered[i..][1..] == ordered[i + 1..];
      var take := Smaller(ordered[i].rounds, remaining);
      draws := draws + [Draw(ordered[i].index, take)];
      remaining := remaining - take;
    }
  }

  function Rounds(draws: seq<Draw>): nat { if draws == [] then 0 else draws[0].rounds + Rounds(draws[1..]) }

  function Supply(sources: seq<Source>): nat { if sources == [] then 0 else sources[0].rounds + Supply(sources[1..]) }

  lemma {:induction false} DrawnTotal(sources: seq<Source>, rounds: nat)
    ensures Rounds(Drawn(sources, rounds)) == Smaller(rounds, Supply(sources))
  {
    if sources != [] && rounds > 0 {
      DrawnTotal(sources[1..], rounds - Smaller(sources[0].rounds, rounds));
    }
  }

  /** Draws follow the listing, each within its bin, every one but the last draining it. */
  lemma {:induction false} DrawnFollows(sources: seq<Source>, rounds: nat)
    ensures var draws := Drawn(sources, rounds);
            |draws| <= |sources| &&
            (forall i :: 0 <= i < |draws| ==>
              draws[i].index == sources[i].index && draws[i].rounds <= sources[i].rounds) &&
            (forall i :: 0 <= i < |draws| && sources[i].rounds > 0 ==> draws[i].rounds > 0) &&
            (forall i :: 0 <= i < |draws| - 1 ==> draws[i].rounds == sources[i].rounds)
  {
    if sources != [] && rounds > 0 {
      DrawnFollows(sources[1..], rounds - Smaller(sources[0].rounds, rounds));
    }
  }

  lemma {:induction false} SupplyOfInsert(x: Source, s: seq<Source>)
    ensures Supply(Insert(Before, x, s)) == x.rounds + Supply(s)
  {
    if s != [] && !Before(x, s[0]) {
      SupplyOfInsert(x, s[1..]);
    }
  }

  lemma {:induction false} SupplyOfSort(s: seq<Source>)
    ensures Supply(Sort(Before, s)) == Supply(s)
  {
    if s != [] {
      SupplyOfSort(s[1..]);
      SupplyOfInsert(s[0], Sort(Before, s[1..]));
    }
  }

  /** The plan draws exactly what was asked, or everything there is. */
  lemma PlanDrawsRequestOrSupply(sources: seq<Source>, rounds: nat)
    ensures Rounds(Plan(sources, rounds)) == Smaller(rounds, Supply(sources))
  {
    SupplyOfSort(sources);
    DrawnTotal(Sort(Before, sources), rounds);
  }

  ghost predicate DistinctBins(sources: seq<Source>) {
    forall s, t :: s in sources && t in sources && s.index == t.index ==> s == t
  }

  ghost predicate Single(sources: seq<Source>) { forall s :: multiset(sources)[s] <= 1 }

  lemma SortedMembers(sources: seq<Source>)
    ensures var ordered := Sort(Before, sources);
            Ordered(Before, ordered) && multiset(ordered) == multiset(sources) &&
            forall s :: s in ordered <==> s in sources
  {
    BeforeIsTotal();
    SortSorts(Before, sources);
    forall s: Source
      ensures s in Sort(Before, sources) <==> s in sources
    {
      assert s in multiset(Sort(Before, sources)) <==> s in multiset(sources);
    }
  }

  /** A repeat would be counted twice. */
  lemma {:induction false} SingleIsDistinct(sources: seq<Source>)
    requires Single(sources)
    ensures Distinct(sources)
  {
    if sources != [] {
      var head, tail := sources[0], sources[1..];
      assert sources == [head] + tail;
      assert multiset(sources) == multiset{head} + multiset(tail);
      assert forall s :: multiset(tail)[s] <= multiset(sources)[s];
      SingleIsDistinct(tail);
      assert multiset(sources)[head] == 1 + multiset(tail)[head];
      assert head !in tail;
    }
  }

  /** Every draw is from a different listed bin, takes at least one round and no more than it holds. */
  lemma PlanDrawsAreBounded(sources: seq<Source>, rounds: nat)
    requires Single(sources) && DistinctBins(sources) && forall s :: s in sources ==> s.rounds > 0
    ensures var draws := Plan(sources, rounds);
            (forall d :: d in draws ==> exists s :: s in sources && s.index == d.index && 0 < d.rounds <= s.rounds) &&
            forall i, j :: 0 <= i < j < |draws| ==> draws[i].index != draws[j].index
  {
    var ordered, draws := Sort(Before, sources), Plan(sources, rounds);
    SortedMembers(sources);
    SingleIsDistinct(ordered);
    DrawnFollows(ordered, rounds);
    forall d | d in draws
      ensures exists s :: s in sources && s.index == d.index && 0 < d.rounds <= s.rounds
    {
      var i :| 0 <= i < |draws| && draws[i] == d;
      assert ordered[i] in sources;
    }
    forall i, j | 0 <= i < j < |draws|
      ensures draws[i].index != draws[j].index
    {
      assert ordered[i] in sources && ordered[j] in sources;
    }
  }

  /** In a listing in feed order, an earlier key is drained before a later one is touched. */
  lemma DrainedBefore(ordered: seq<Source>, rounds: nat, i: nat, j: nat)
    requires Ordered(Before, ordered) && i < |Drawn(ordered, rounds)| && j < |ordered|
    requires i < |ordered| && !Before(ordered[i], ordered[j])
    ensures Draw(ordered[j].index, ordered[j].rounds) in Drawn(ordered, rounds)
  {
    assert j < i;
    DrawnFollows(ordered, rounds);
    assert Drawn(ordered, rounds)[j] == Draw(ordered[j].index, ordered[j].rounds);
  }

  lemma DrawnPlace(ordered: seq<Source>, rounds: nat, d: Draw) returns (i: nat)
    requires d in Drawn(ordered, rounds)
    ensures i < |Drawn(ordered, rounds)| && i < |ordered| && d.index == ordered[i].index
  {
    DrawnFollows(ordered, rounds);
    i :| i < |Drawn(ordered, rounds)| && Drawn(ordered, rounds)[i] == d;
  }

  /** A bin is touched only after every bin of strictly better priority is drained. */
  lemma BetterBinsDrainFirst(sources: seq<Source>, rounds: nat, better: Source, worse: Source, d: Draw)
    requires DistinctBins(sources) && better in sources && worse in sources && !Before(worse, better)
    requires d in Plan(sources, rounds) && d.index == worse.index
    ensures Draw(better.index, better.rounds) in Plan(sources, rounds)
  {
    var ordered := Sort(Before, sources);
    SortedMembers(sources);
    var i := DrawnPlace(ordered, rounds, d);
    assert ordered[i] in sources;
    var j: nat :| j < |ordered| && ordered[j] == better;
    DrainedBefore(ordered, rounds, i, j);
  }

  /** With distinct keys, the plan does not depend on the order bins are listed in. */
  lemma PlanIgnoresListing(a: seq<Source>, b: seq<Source>, rounds: nat)
    requires multiset(a) == multiset(b)
    requires forall s, t :: s in a && t in a && Before(s, t) && Before(t, s) ==> s == t
    ensures Plan(a, rounds) == Plan(b, rounds)
  {
    BeforeIsTotal();
    forall s, t | s in a && t in b && Before(s, t) && Before(t, s)
      ensures s == t
    {
      assert t in multiset(a);
    }
    SortIgnoresOrder(Before, a, b);
  }

  // ----- The whole feed

  /** Bins of a loadout occupy distinct critical slots. */
  ghost predicate DistinctSlots(bins: seq<Bin>) {
    forall i, j :: 0 <= i < j < |bins| ==> bins[i].section != bins[j].section || bins[i].slot != bins[j].slot
  }

  method Feed(mount: Mount, bins: seq<Bin>, rounds: nat) returns (draws: seq<Draw>)
    ensures draws == Plan(Eligible(mount, bins, |bins|), rounds)
    ensures forall d :: d in draws ==>
              d.index < |bins| && Compatible(mount, bins[d.index]) && 0 < d.rounds <= bins[d.index].rounds
    ensures forall i, j :: 0 <= i < j < |draws| ==> draws[i].index != draws[j].index
    ensures Rounds(draws) == Smaller(rounds, Supply(Eligible(mount, bins, |bins|)))
  {
    var sources := Eligible(mount, bins, |bins|);
    draws := PlanDraws(sources, rounds);
    EligibleFacts(mount, bins, |bins|);
    EligibleAreSingle(mount, bins);
    PlanDrawsAreBounded(sources, rounds);
    PlanDrawsRequestOrSupply(sources, rounds);
  }

  lemma EligibleAreSingle(mount: Mount, bins: seq<Bin>)
    ensures Single(Eligible(mount, bins, |bins|)) && DistinctBins(Eligible(mount, bins, |bins|))
  {
    EligibleFacts(mount, bins, |bins|);
    var r := Eligible(mount, bins, |bins|);
    forall s: Source
      ensures multiset(r)[s] <= 1
    {
      CountOfIncreasing(r, s);
    }
  }

  lemma {:induction false} CountOfIncreasing(r: seq<Source>, s: Source)
    requires InLoadoutOrder(r)
    ensures multiset(r)[s] <= 1
  {
    if r != [] {
      assert r == [r[0]] + r[1..];
      CountOfIncreasing(r[1..], s);
      if s == r[0] {
        assert s !in r[1..];
      }
    }
  }

  /** The selected section before all others, then the mount's own, then section and slot. */
  ghost predicate Sooner(mount: Mount, a: Bin, b: Bin) {
    var chosen, other := mount.preferred == Some(a.section), mount.preferred == Some(b.section);
    if chosen != other then chosen
    else if !chosen && (a.section == mount.section) != (b.section == mount.section) then a.section == mount.section
    else a.section < b.section || (a.section == b.section && a.slot < b.slot)
  }

  /** A bin is drawn only once every compatible bin that comes sooner is drained. */
  lemma SoonerBinsDrainFirst(mount: Mount, bins: seq<Bin>, rounds: nat, i: nat, j: nat, d: Draw)
    requires i < |bins| && j < |bins| && Compatible(mount, bins[i]) && Compatible(mount, bins[j])
    requires Sooner(mount, bins[i], bins[j])
    requires d in Plan(Eligible(mount, bins, |bins|), rounds) && d.index == j
    ensures Draw(i, bins[i].rounds) in Plan(Eligible(mount, bins, |bins|), rounds)
  {
    EligibleFacts(mount, bins, |bins|);
    EligibleAreSingle(mount, bins);
    BetterBinsDrainFirst(Eligible(mount, bins, |bins|), rounds, SourceOf(mount, bins, i), SourceOf(mount, bins, j), d);
  }

  // ----- The feed without indices

  /** Feed order on bins themselves. */
  function Nearer(mount: Mount): (Bin, Bin) -> bool {
    (a: Bin, b: Bin) =>
      var p := Priority(mount.preferred, mount.section, a.section);
      var q := Priority(mount.preferred, mount.section, b.section);
      p < q || (p == q && (a.section < b.section || (a.section == b.section && a.slot <= b.slot)))
  }

  function CompatibleBins(mount: Mount, bins: seq<Bin>): seq<Bin> { Filter((b: Bin) => Compatible(mount, b), bins) }

  /** Rounds taken from each bin in turn until the request is met. */
  function Taken(bins: seq<Bin>, rounds: nat): seq<(Bin, nat)> {
    if bins == [] || rounds == 0 then [] else
      var take := Smaller(bins[0].rounds, rounds);
      [(bins[0], take)] + Taken(bins[1..], rounds - take)
  }

  ghost predicate SourcesOf(mount: Mount, bins: seq<Bin>, sources: seq<Source>) {
    forall s :: s in sources ==> s.index < |bins| && s == SourceOf(mount, bins, s.index)
  }

  function BinsOf(bins: seq<Bin>, sources: seq<Source>): seq<Bin>
    requires forall s :: s in sources ==> s.index < |bins|
  {
    if sources == [] then [] else
      assert sources[0] in sources;
      [bins[sources[0].index]] + BinsOf(bins, sources[1..])
  }

  function TakenOf(bins: seq<Bin>, draws: seq<Draw>): seq<(Bin, nat)>
    requires forall d :: d in draws ==> d.index < |bins|
  {
    if draws == [] then [] else
      assert draws[0] in draws;
      [(bins[draws[0].index], draws[0].rounds)] + TakenOf(bins, draws[1..])
  }

  lemma {:induction false} InsertByBin(mount: Mount, bins: seq<Bin>, x: Source, s: seq<Source>)
    requires SourcesOf(mount, bins, [x] + s)
    ensures SourcesOf(mount, bins, Insert(Before, x, s))
    ensures BinsOf(bins, Insert(Before, x, s)) == Insert(Nearer(mount), bins[x.index], BinsOf(bins, s))
  {
    assert x in [x] + s && forall y :: y in s ==> y in [x] + s;
    if s != [] {
      assert s[0] in s;
      if !Before(x, s[0]) {
        InsertByBin(mount, bins, x, s[1..]);
      }
    }
  }

  lemma {:induction false} SortByBin(mount: Mount, bins: seq<Bin>, s: seq<Source>)
    requires SourcesOf(mount, bins, s)
    ensures SourcesOf(mount, bins, Sort(Before, s))
    ensures BinsOf(bins, Sort(Before, s)) == Sort(Nearer(mount), BinsOf(bins, s))
  {
    if s != [] {
      SortByBin(mount, bins, s[1..]);
      InsertByBin(mount, bins, s[0], Sort(Before, s[1..]));
    }
  }

  lemma {:induction false} DrawnByBin(mount: Mount, bins: seq<Bin>, s: seq<Source>, rounds: nat)
    requires SourcesOf(mount, bins, s)
    ensures forall d :: d in Drawn(s, rounds) ==> d.index < |bins|
    ensures TakenOf(bins, Drawn(s, rounds)) == Taken(BinsOf(bins, s), rounds)
  {
    if s != [] && rounds > 0 {
      assert s[0] in s;
      DrawnByBin(mount, bins, s[1..], rounds - Smaller(s[0].rounds, rounds));
    }
  }

  lemma {:induction false} BinsOfAppend(bins: seq<Bin>, a: seq<Source>, b: seq<Source>)
    requires forall s :: s in a + b ==> s.index < |bins|
    ensures (forall s :: s in a ==> s in a + b) && (forall s :: s in b ==> s in a + b)
    ensures BinsOf(bins, a + b) == BinsOf(bins, a) + BinsOf(bins, b)
  {
    if a == [] {
      assert a + b == b;
    } else {
      assert (a + b)[1..] == a[1..] + b;
      BinsOfAppend(bins, a[1..], b);
    }
  }

  lemma {:induction false} EligibleByBin(mount: Mount, bins: seq<Bin>, n: nat)
    requires n <= |bins|
    ensures SourcesOf(mount, bins, Eligible(mount, bins, n))
    ensures BinsOf(bins, Eligible(mount, bins, n)) == CompatibleBins(mount, bins[..n])
  {
    if n > 0 {
      var compatible := (b: Bin) => Compatible(mount, b);
      EligibleByBin(mount, bins, n - 1);
      var last := if compatible(bins[n - 1]) then [SourceOf(mount, bins, n - 1)] else [];
      BinsOfAppend(bins, Eligible(mount, bins, n - 1), last);
      assert bins[..n] == bins[..n - 1] + [bins[n - 1]];
      FilterAppend(compatible, bins[..n - 1], [bins[n - 1]]);
    }
  }

  /** The feed, read as bins and rounds, is the compatible bins in feed order drawn until the request is met. */
  lemma FeedByBin(mount: Mount, bins: seq<Bin>, rounds: nat)
    ensures var draws := Plan(Eligible(mount, bins, |bins|), rounds);
            (forall d :: d in draws ==> d.index < |bins|) &&
            TakenOf(bins, draws) == Taken(Sort(Nearer(mount), CompatibleBins(mount, bins)), rounds)
  {
    EligibleByBin(mount, bins, |bins|);
    assert bins[..|bins|] == bins;
    SortByBin(mount, bins, Eligible(mount, bins, |bins|));
    DrawnByBin(mount, bins, Sort(Before, Eligible(mount, bins, |bins|)), rounds);
  }

  lemma NearerIsTotal(mount: Mount)
    ensures Total(Nearer(mount))
  {
  }

  /** Bins in distinct slots never tie in feed order. */
  lemma SlotsBreakTies(mount: Mount, bins: seq<Bin>, x: Bin, y: Bin)
    requires DistinctSlots(bins) && x in bins && y in bins && Nearer(mount)(x, y) && Nearer(mount)(y, x)
    ensures x == y
  {
    var i :| 0 <= i < |bins| && bins[i] == x;
    var j :| 0 <= j < |bins| && bins[j] == y;
  }

  lemma FeedOrderIgnoresListing(mount: Mount, a: seq<Bin>, b: seq<Bin>)
    requires DistinctSlots(a) && multiset(a) == multiset(b)
    ensures Sort(Nearer(mount), CompatibleBins(mount, a)) == Sort(Nearer(mount), CompatibleBins(mount, b))
  {
    var c, d := CompatibleBins(mount, a), CompatibleBins(mount, b);
    FilterIgnoresOrder((x: Bin) => Compatible(mount, x), a, b);
    NearerIsTotal(mount);
    forall x, y | x in c && y in d && Nearer(mount)(x, y) && Nearer(mount)(y, x)
      ensures x == y
    {
      assert y in multiset(b) && y in multiset(a);
      SlotsBreakTies(mount, a, x, y);
    }
    SortIgnoresOrder(Nearer(mount), c, d);
  }

  /** With bins in distinct slots, what the feed takes does not depend on how the loadout lists them. */
  lemma FeedIgnoresListing(mount: Mount, a: seq<Bin>, b: seq<Bin>, rounds: nat)
    requires DistinctSlots(a) && multiset(a) == multiset(b)
    ensures var p, q := Plan(Eligible(mount, a, |a|), rounds), Plan(Eligible(mount, b, |b|), rounds);
            (forall d :: d in p ==> d.index < |a|) && (forall d :: d in q ==> d.index < |b|) &&
            TakenOf(a, p) == TakenOf(b, q)
  {
    FeedByBin(mount, a, rounds);
    FeedByBin(mount, b, rounds);
    FeedOrderIgnoresListing(mount, a, b);
  }
}
