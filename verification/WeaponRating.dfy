/** The heat-ordered Weapon Battle Rating, over exact arithmetic (TechManual p. 303 steps 1-8). */
module WeaponRating {
  import opened Prelude
  import opened Sorting

  /** A weapon's modified value and the heat it counts. */
  datatype Weapon = Weapon(value: real, heat: real)

  datatype Chassis = Mech(heatEfficiency: real) | Vehicle

  datatype Valuation = Valuation(
    chassis: Chassis, weapons: seq<Weapon>, ammunition: real, equipment: real, tonnage: real)

  /** The order weapons are counted in: by falling value, then by rising heat. */
  predicate Earlier(a: Weapon, b: Weapon) { a.value > b.value || (a.value == b.value && a.heat <= b.heat) }

  function Value(ws: seq<Weapon>): real { if ws == [] then 0.0 else ws[0].value + Value(ws[1..]) }

  function Heat(ws: seq<Weapon>): real { if ws == [] then 0.0 else ws[0].heat + Heat(ws[1..]) }

  function Cold(ws: seq<Weapon>): seq<Weapon> { Filter((w: Weapon) => w.heat <= 0.0, ws) }

  function Hot(ws: seq<Weapon>): seq<Weapon> { Filter((w: Weapon) => w.heat > 0.0, ws) }

  /** Full value until the running heat reaches the efficiency, half value from then on. */
  function Accumulated(ws: seq<Weapon>, heat: real, over: bool, efficiency: real): real {
    if ws == [] then 0.0
    else if over then ws[0].value / 2.0 + Accumulated(ws[1..], heat, true, efficiency)
    else
      var running := heat + ws[0].heat;
      ws[0].value + Accumulated(ws[1..], running, running >= efficiency, efficiency)
  }

  function Base(v: Valuation): real { v.ammunition + v.equipment + v.tonnage }

  function Rating(v: Valuation): real {
    match v.chassis
    case Vehicle => Base(v) + Value(v.weapons)
    case Mech(efficiency) =>
      Base(v) + Value(Cold(v.weapons)) + Accumulated(Sort(Earlier, Hot(v.weapons)), 0.0, false, efficiency)
  }

  // ----- Sums

  lemma {:induction false} SumsAppend(a: seq<Weapon>, b: seq<Weapon>)
    ensures Value(a + b) == Value(a) + Value(b) && Heat(a + b) == Heat(a) + Heat(b)
  {
    if a == [] {
      assert a + b == b;
    } else {
      assert (a + b)[1..] == a[1..] + b;
      SumsAppend(a[1..], b);
    }
  }

  function Without(ws: seq<Weapon>, i: nat): seq<Weapon>
    requires i < |ws|
  {
    ws[..i] + ws[i + 1..]
  }

  lemma WithoutSums(ws: seq<Weapon>, i: nat)
    requires i < |ws|
    ensures Value(ws) == ws[i].value + Value(Without(ws, i)) && Heat(ws) == ws[i].heat + Heat(Without(ws, i))
  {
    SumsAppend(ws[..i], ws[i..]);
    SumsAppend(ws[..i], ws[i + 1..]);
    assert ws == ws[..i] + ws[i..] && ws[i..][1..] == ws[i + 1..];
  }

  lemma WithoutMembers(ws: seq<Weapon>, i: nat)
    requires i < |ws|
    ensures multiset(Without(ws, i)) == multiset(ws) - multiset{ws[i]}
  {
    assert ws == ws[..i] + [ws[i]] + ws[i + 1..];
  }

  /** Sums depend only on which weapons there are. */
  lemma {:induction false} SumsIgnoreOrder(a: seq<Weapon>, b: seq<Weapon>)
    requires multiset(a) == multiset(b)
    ensures Value(a) == Value(b) && Heat(a) == Heat(b)
    decreases |a|
  {
    if a == [] {
      assert |multiset(b)| == |b|;
    } else {
      assert a[0] in multiset(b);
      var i :| 0 <= i < |b| && b[i] == a[0];
      WithoutMembers(a, 0);
      WithoutMembers(b, i);
      assert Without(a, 0) == a[1..];
      SumsIgnoreOrder(a[1..], Without(b, i));
      WithoutSums(b, i);
    }
  }

  lemma EarlierIsTotal()
    ensures Total(Earlier)
  {
  }

  lemma HotSorted(ws: seq<Weapon>)
    ensures multiset(Sort(Earlier, Hot(ws))) == multiset(Hot(ws)) && Ordered(Earlier, Sort(Earlier, Hot(ws)))
    ensures forall w :: w in Sort(Earlier, Hot(ws)) ==> w in ws && w.heat > 0.0
  {
    EarlierIsTotal();
    SortSorts(Earlier, Hot(ws));
    forall w | w in Sort(Earlier, Hot(ws))
      ensures w in ws && w.heat > 0.0
    {
      assert w in multiset(Hot(ws));
    }
  }

  // ----- The rating

  lemma PartsIgnoreOrder(a: seq<Weapon>, b: seq<Weapon>)
    requires multiset(a) == multiset(b)
    ensures Value(a) == Value(b) && Value(Cold(a)) == Value(Cold(b))
    ensures multiset(Hot(a)) == multiset(Hot(b))
  {
    SumsIgnoreOrder(a, b);
    FilterIgnoresOrder((w: Weapon) => w.heat <= 0.0, a, b);
    FilterIgnoresOrder((w: Weapon) => w.heat > 0.0, a, b);
    SumsIgnoreOrder(Cold(a), Cold(b));
  }

  /** The rating depends only on the multiset of weapons, not their order. */
  lemma RatingIgnoresOrder(v: Valuation, ws: seq<Weapon>)
    requires multiset(v.weapons) == multiset(ws)
    ensures Rating(v) == Rating(v.(weapons := ws))
  {
    PartsIgnoreOrder(v.weapons, ws);
    FiringOrderIgnoresOrder(Hot(v.weapons), Hot(ws));
  }

  lemma FiringOrderIgnoresOrder(a: seq<Weapon>, b: seq<Weapon>)
    requires multiset(a) == multiset(b)
    ensures Sort(Earlier, a) == Sort(Earlier, b)
  {
    EarlierIsTotal();
    SortIgnoresOrder(Earlier, a, b);
  }

  /** When total heat stays within the efficiency the loop halves nothing, which is what the shortcut assumes. */
  lemma {:induction false} WithinEfficiencyIsFull(ws: seq<Weapon>, heat: real, efficiency: real)
    requires heat + Heat(ws) <= efficiency && forall w :: w in ws ==> w.heat > 0.0
    ensures Accumulated(ws, heat, false, efficiency) == Value(ws)
  {
    if ws != [] {
      var running := heat + ws[0].heat;
      if running >= efficiency {
        HeatIsPositive(ws[1..]);
      }
      if ws[1..] != [] {
        HeatIsPositive(ws[1..]);
        assert running < efficiency;
        WithinEfficiencyIsFull(ws[1..], running, efficiency);
      }
    }
  }

  lemma {:induction false} HeatIsPositive(ws: seq<Weapon>)
    requires forall w :: w in ws ==> w.heat > 0.0
    ensures if ws == [] then Heat(ws) == 0.0 else Heat(ws) > 0.0
  {
    if ws != [] {
      assert ws[0] in ws;
      HeatIsPositive(ws[1..]);
    }
  }

  /** A higher efficiency never lowers what the weapons count. */
  lemma {:induction false} AccumulatedMonotone(
    ws: seq<Weapon>, heat: real, over: bool, more: bool, low: real, high: real)
    requires low <= high && (more ==> over) && forall w :: w in ws ==> w.value >= 0.0
    ensures Accumulated(ws, heat, over, low) <= Accumulated(ws, heat, more, high)
    decreases |ws|
  {
    if ws != [] {
      assert ws[0] in ws;
      var running := heat + ws[0].heat;
      if over && more {
        AccumulatedMonotone(ws[1..], heat, true, true, low, high);
      } else if over {
        AccumulatedOver(ws[1..], heat, low, running, low);
        AccumulatedMonotone(ws[1..], running, true, running >= high, low, high);
      } else {
        AccumulatedMonotone(ws[1..], running, running >= low, running >= high, low, high);
      }
    }
  }

  /** Past the efficiency, everything counts half. */
  lemma {:induction false} AccumulatedOver(ws: seq<Weapon>, heat: real, low: real, other: real, high: real)
    ensures Accumulated(ws, heat, true, low) == Accumulated(ws, other, true, high) == Value(ws) / 2.0
  {
    if ws != [] {
      AccumulatedOver(ws[1..], heat, low, other, high);
    }
  }

  lemma RatingRisesWithEfficiency(v: Valuation, low: real, high: real)
    requires low <= high && forall w :: w in v.weapons ==> w.value >= 0.0
    ensures Rating(v.(chassis := Mech(low))) <= Rating(v.(chassis := Mech(high)))
  {
    HotSorted(v.weapons);
    AccumulatedMonotone(Sort(Earlier, Hot(v.weapons)), 0.0, false, false, low, high);
  }

  /** How many of the ordered weapons count in full: up to the first that reaches the efficiency. */
  function FullCount(ws: seq<Weapon>, heat: real, efficiency: real): (k: nat)
    ensures k <= |ws| && (ws != [] ==> k >= 1)
  {
    if ws == [] then 0
    else if heat + ws[0].heat >= efficiency then 1
    else 1 + FullCount(ws[1..], heat + ws[0].heat, efficiency)
  }

  /** The loop in closed form: a prefix in full and the rest at half. */
  lemma {:induction false} AccumulatedIsPrefix(ws: seq<Weapon>, heat: real, efficiency: real)
    ensures var k := FullCount(ws, heat, efficiency);
            Accumulated(ws, heat, false, efficiency) == Value(ws[..k]) + Value(ws[k..]) / 2.0 &&
            (k < |ws| ==> heat + Heat(ws[..k]) >= efficiency) &&
            forall j :: 0 < j < k ==> heat + Heat(ws[..j]) < efficiency
  {
    if ws != [] {
      var running, k := heat + ws[0].heat, FullCount(ws, heat, efficiency);
      if running >= efficiency {
        AccumulatedOver(ws[1..], running, efficiency, running, efficiency);
        assert ws[..1] == [ws[0]] && ws[..1][1..] == [];
      } else {
        AccumulatedIsPrefix(ws[1..], running, efficiency);
        assert ws[..k][1..] == ws[1..][..k - 1] && ws[k..] == ws[1..][k - 1..];
        forall j | 0 < j < k
          ensures heat + Heat(ws[..j]) < efficiency
        {
          assert ws[..j][1..] == ws[1..][..j - 1];
          if j > 1 {
            assert running + Heat(ws[1..][..j - 1]) < efficiency;
          }
        }
      }
    }
  }

  lemma {:induction false} ValueIsNonnegative(ws: seq<Weapon>)
    requires forall w :: w in ws ==> w.value >= 0.0
    ensures Value(ws) >= 0.0
  {
    if ws != [] {
      assert ws[0] in ws;
      ValueIsNonnegative(ws[1..]);
    }
  }

  lemma AccumulatedBounds(ws: seq<Weapon>, efficiency: real)
    requires forall w :: w in ws ==> w.value >= 0.0
    ensures Value(ws) / 2.0 <= Accumulated(ws, 0.0, false, efficiency) <= Value(ws)
  {
    var k := FullCount(ws, 0.0, efficiency);
    AccumulatedIsPrefix(ws, 0.0, efficiency);
    assert ws == ws[..k] + ws[k..];
    SumsAppend(ws[..k], ws[k..]);
    ValueIsNonnegative(ws[..k]);
    ValueIsNonnegative(ws[k..]);
  }

  /** Between half and all of the heated value, above the unheated terms; a vehicle counts everything in full. */
  lemma RatingBounds(v: Valuation)
    requires forall w :: w in v.weapons ==> w.value >= 0.0
    ensures var floor := v.ammunition + v.equipment + v.tonnage;
            if v.chassis.Vehicle? then Rating(v) == floor + Value(v.weapons)
            else
              var cold, hot := floor + Value(Cold(v.weapons)), Value(Hot(v.weapons));
              cold + hot / 2.0 <= Rating(v) <= cold + hot
  {
    if v.chassis.Vehicle? {
      return;
    }
    HotSorted(v.weapons);
    SumsIgnoreOrder(Sort(Earlier, Hot(v.weapons)), Hot(v.weapons));
    AccumulatedBounds(Sort(Earlier, Hot(v.weapons)), v.chassis.heatEfficiency);
  }

  // ----- The order weapons are counted in

  /** The heated weapons by falling value, those of equal value by rising heat, each as often as mounted. */
  lemma CountingOrder(ws: seq<Weapon>)
    ensures var order := Sort(Earlier, Hot(ws));
            multiset(order) == multiset(Hot(ws)) &&
            forall i, j :: 0 <= i < j < |order| ==>
              order[i].value > order[j].value ||
              (order[i].value == order[j].value && order[i].heat <= order[j].heat)
  {
    HotSorted(ws);
    var order := Sort(Earlier, Hot(ws));
    forall i, j | 0 <= i < j < |order|
      ensures Earlier(order[i], order[j])
    {
    }
  }

  ghost predicate Falling(ws: seq<Weapon>) { forall i, j :: 0 <= i < j < |ws| ==> ws[i].value >= ws[j].value }

  /** The first j weapons of `b` are worth as much as those of `a`, and no hotter. */
  ghost predicate CoolerAt(a: seq<Weapon>, b: seq<Weapon>, j: nat)
    requires j <= |a| == |b|
  {
    Value(b[..j]) == Value(a[..j]) && Heat(b[..j]) <= Heat(a[..j])
  }

  lemma HeadSums(w: Weapon, ws: seq<Weapon>, j: nat)
    requires j <= |ws|
    ensures Value(([w] + ws)[..j + 1]) == w.value + Value(ws[..j])
    ensures Heat(([w] + ws)[..j + 1]) == w.heat + Heat(ws[..j])
  {
    assert ([w] + ws)[..j + 1] == [w] + ws[..j] && ([w] + ws[..j])[1..] == ws[..j];
  }

  /** Moving a weapon back past those it ties with, each cooler, cools every prefix. */
  lemma {:induction false} InsertCools(w: Weapon, ws: seq<Weapon>, j: nat)
    requires (forall x :: x in ws ==> w.value >= x.value) && j <= |ws| + 1
    ensures |Insert(Earlier, w, ws)| == |ws| + 1 && CoolerAt([w] + ws, Insert(Earlier, w, ws), j)
  {
    if ws != [] && !Earlier(w, ws[0]) {
      var rest, order := ws[1..], Insert(Earlier, w, ws);
      assert ws[0] in ws && forall x :: x in rest ==> x in ws;
      InsertCools(w, rest, if j == 0 then 0 else j - 1);
      if j > 0 {
        HeadSums(ws[0], Insert(Earlier, w, rest), j - 1);
        HeadSums(w, ws, j - 1);
        if j > 1 {
          assert [ws[0]] + rest == ws;
          HeadSums(ws[0], rest, j - 2);
          HeadSums(w, rest, j - 2);
        } else {
          assert ws[..0] == [] && Insert(Earlier, w, rest)[..0] == [];
        }
      }
    }
  }

  lemma ConsCools(w: Weapon, a: seq<Weapon>, b: seq<Weapon>, j: nat)
    requires j <= |a| == |b| && CoolerAt(a, b, j)
    ensures CoolerAt([w] + a, [w] + b, j + 1)
  {
    HeadSums(w, a, j);
    HeadSums(w, b, j);
  }

  lemma {:induction false} SortedBelow(w: Weapon, rest: seq<Weapon>)
    requires Falling([w] + rest)
    ensures Falling(rest) && forall x :: x in Sort(Earlier, rest) ==> w.value >= x.value
  {
    var ws := [w] + rest;
    assert forall i :: 0 <= i < |rest| ==> ws[i + 1] == rest[i];
    forall x | x in rest
      ensures w.value >= x.value
    {
      var i :| 0 <= i < |rest| && rest[i] == x;
      assert ws[0].value >= ws[i + 1].value;
    }
    EarlierIsTotal();
    SortSorts(Earlier, rest);
    assert forall x :: x in Sort(Earlier, rest) ==> x in multiset(rest);
  }

  lemma {:induction false} SortCools(ws: seq<Weapon>, j: nat)
    requires Falling(ws) && j <= |ws|
    ensures |Sort(Earlier, ws)| == |ws| && CoolerAt(ws, Sort(Earlier, ws), j)
  {
    if ws != [] {
      var w, rest := ws[0], ws[1..];
      var order := Sort(Earlier, rest);
      assert [w] + rest == ws;
      SortedBelow(w, rest);
      SortCools(rest, if j == 0 then 0 else j - 1);
      InsertCools(w, order, j);
      if j > 0 {
        ConsCools(w, rest, order, j - 1);
      }
    }
  }

  lemma CoolerCountsMore(a: seq<Weapon>, b: seq<Weapon>, efficiency: real)
    requires |a| == |b| && forall j: nat :: j <= |a| ==> CoolerAt(a, b, j)
    ensures FullCount(a, 0.0, efficiency) <= FullCount(b, 0.0, efficiency)
  {
    var k, now := FullCount(a, 0.0, efficiency), FullCount(b, 0.0, efficiency);
    AccumulatedIsPrefix(a, 0.0, efficiency);
    AccumulatedIsPrefix(b, 0.0, efficiency);
    assert CoolerAt(a, b, now);
  }

  /** Counting ties by least heat is the best of all orders by falling value. */
  lemma LeastHeatFirstIsBest(ws: seq<Weapon>, efficiency: real)
    requires Falling(ws) && forall w :: w in ws ==> w.value >= 0.0
    ensures Accumulated(ws, 0.0, false, efficiency) <= Accumulated(Sort(Earlier, ws), 0.0, false, efficiency)
  {
    var order := Sort(Earlier, ws);
    SortCools(ws, 0);
    forall j: nat | j <= |ws|
      ensures CoolerAt(ws, order, j)
    {
      SortCools(ws, j);
    }
    CoolerCountsMore(ws, order, efficiency);
    var k, now := FullCount(ws, 0.0, efficiency), FullCount(order, 0.0, efficiency);
    TwiceAccumulated(ws, efficiency);
    TwiceAccumulated(order, efficiency);
    assert CoolerAt(ws, order, |ws|) && ws[..|ws|] == ws && order[..|order|] == order;
    assert CoolerAt(ws, order, now);
    ValueSplit(ws, k, now);
    ValueIsNonnegative(ws[k..now]);
  }

  // ----- One more weapon

  /** Splitting at the weapon that reaches the efficiency. */
  lemma TwiceAccumulated(ws: seq<Weapon>, efficiency: real)
    ensures var k := FullCount(ws, 0.0, efficiency);
            2.0 * Accumulated(ws, 0.0, false, efficiency) == Value(ws) + Value(ws[..k])
  {
    var k := FullCount(ws, 0.0, efficiency);
    AccumulatedIsPrefix(ws, 0.0, efficiency);
    assert ws == ws[..k] + ws[k..];
    SumsAppend(ws[..k], ws[k..]);
  }

  lemma ValueSplit(ws: seq<Weapon>, i: nat, j: nat)
    requires i <= j <= |ws|
    ensures Value(ws[..j]) == Value(ws[..i]) + Value(ws[i..j])
  {
    assert ws[..j] == ws[..i] + ws[i..j];
    SumsAppend(ws[..i], ws[i..j]);
  }

  lemma InsertedSums(ws: seq<Weapon>, w: Weapon, p: nat)
    requires p <= |ws|
    ensures var more := ws[..p] + [w] + ws[p..];
            Value(more) == Value(ws) + w.value && Heat(more) == Heat(ws) + w.heat
  {
    assert ws == ws[..p] + ws[p..] && [w][1..] == [];
    SumsAppend(ws[..p], ws[p..]);
    SumsAppend(ws[..p], [w]);
    SumsAppend(ws[..p] + [w], ws[p..]);
  }

  /** The first j weapons, with and without a newcomer at p. */
  lemma InsertedPrefix(ws: seq<Weapon>, w: Weapon, p: nat, j: nat)
    requires p <= |ws| && j <= |ws| + 1
    ensures var more := ws[..p] + [w] + ws[p..];
            if j <= p then more[..j] == ws[..j]
            else Value(more[..j]) == Value(ws[..j - 1]) + w.value && Heat(more[..j]) == Heat(ws[..j - 1]) + w.heat
  {
    var more := ws[..p] + [w] + ws[p..];
    if j > p {
      var before := ws[..j - 1];
      assert more[..j] == before[..p] + [w] + before[p..];
      InsertedSums(before, w, p);
    }
  }

  /** A newcomer behind the cut leaves it in place; one before it never pushes it past the old one. */
  lemma InsertedFullCount(ws: seq<Weapon>, w: Weapon, p: nat, efficiency: real)
    requires p <= |ws| && w.heat > 0.0
    ensures var k := FullCount(ws, 0.0, efficiency);
            var now := FullCount(ws[..p] + [w] + ws[p..], 0.0, efficiency);
            if p >= now then now == k else now <= k + 1
  {
    var more := ws[..p] + [w] + ws[p..];
    var k, now := FullCount(ws, 0.0, efficiency), FullCount(more, 0.0, efficiency);
    AccumulatedIsPrefix(ws, 0.0, efficiency);
    AccumulatedIsPrefix(more, 0.0, efficiency);
    InsertedPrefix(ws, w, p, k);
    InsertedPrefix(ws, w, p, k + 1);
    InsertedPrefix(ws, w, p, now);
  }

  /** Weapons that counted in full and are halved once `w` joins. */
  function Displaced(ws: seq<Weapon>, w: Weapon, efficiency: real): seq<Weapon> {
    var k, now := FullCount(ws, 0.0, efficiency), FullCount(Insert(Earlier, w, ws), 0.0, efficiency);
    if 1 <= now <= k && Place(Earlier, w, ws) < now then ws[now - 1..k] else []
  }

  /** Whether the newcomer itself is halved. */
  predicate Halved(ws: seq<Weapon>, w: Weapon, efficiency: real) {
    Place(Earlier, w, ws) >= FullCount(Insert(Earlier, w, ws), 0.0, efficiency)
  }

  /** What a heated newcomer adds: its own share, less half of what it displaces. */
  lemma InsertedAccumulated(ws: seq<Weapon>, w: Weapon, efficiency: real)
    requires w.heat > 0.0
    ensures Accumulated(Insert(Earlier, w, ws), 0.0, false, efficiency) ==
            Accumulated(ws, 0.0, false, efficiency) +
            (if Halved(ws, w, efficiency) then w.value / 2.0 else w.value) - Value(Displaced(ws, w, efficiency)) / 2.0
  {
    var p := Place(Earlier, w, ws);
    InsertAtPlace(Earlier, w, ws);
    var more := ws[..p] + [w] + ws[p..];
    var k, now := FullCount(ws, 0.0, efficiency), FullCount(more, 0.0, efficiency);
    TwiceAccumulated(ws, efficiency);
    TwiceAccumulated(more, efficiency);
    InsertedSums(ws, w, p);
    InsertedFullCount(ws, w, p, efficiency);
    InsertedPrefix(ws, w, p, now);
    if p < now && now <= k {
      ValueSplit(ws, now - 1, k);
    }
  }

  lemma HeatedNewcomerParts(ws: seq<Weapon>, w: Weapon)
    requires w.heat > 0.0
    ensures Cold([w] + ws) == Cold(ws) && Sort(Earlier, Hot([w] + ws)) == Insert(Earlier, w, Sort(Earlier, Hot(ws)))
  {
    assert ([w] + ws)[1..] == ws;
    var hot := Hot([w] + ws);
    assert hot == [w] + Hot(ws) && hot[0] == w && hot[1..] == Hot(ws);
  }

  lemma ColdNewcomerParts(ws: seq<Weapon>, w: Weapon)
    requires w.heat <= 0.0
    ensures Value(Cold([w] + ws)) == w.value + Value(Cold(ws)) && Hot([w] + ws) == Hot(ws)
  {
    assert ([w] + ws)[1..] == ws;
    var cold := Cold([w] + ws);
    assert cold == [w] + Cold(ws) && cold[0] == w && cold[1..] == Cold(ws);
  }

  /** What one more weapon adds to the rating, wherever it is listed. */
  lemma NewcomerAdds(v: Valuation, w: Weapon, more: seq<Weapon>)
    requires multiset(more) == multiset([w] + v.weapons)
    ensures Rating(v.(weapons := more)) == Rating(v) +
            if v.chassis.Vehicle? || w.heat <= 0.0 then w.value else
              var ws, efficiency := Sort(Earlier, Hot(v.weapons)), v.chassis.heatEfficiency;
              (if Halved(ws, w, efficiency) then w.value / 2.0 else w.value) - Value(Displaced(ws, w, efficiency)) / 2.0
  {
    var ws := v.weapons;
    RatingIgnoresOrder(v.(weapons := more), [w] + ws);
    assert ([w] + ws)[1..] == ws;
    if v.chassis.Mech? {
      if w.heat <= 0.0 {
        ColdNewcomerParts(ws, w);
      } else {
        HeatedNewcomerParts(ws, w);
        InsertedAccumulated(Sort(Earlier, Hot(ws)), w, v.chassis.heatEfficiency);
      }
    }
  }

  /**
   * One more weapon keeps the rating from falling exactly when twice its value covers what it
   * pushes past the efficiency, which is nothing for a cold weapon or on a vehicle.
   */
  lemma NewcomerKeepsRatingIff(v: Valuation, w: Weapon, more: seq<Weapon>)
    requires multiset(more) == multiset([w] + v.weapons)
    ensures Rating(v.(weapons := more)) >= Rating(v) <==>
            2.0 * w.value >= if v.chassis.Vehicle? || w.heat <= 0.0 then 0.0
                             else Value(Displaced(Sort(Earlier, Hot(v.weapons)), w, v.chassis.heatEfficiency))
  {
    NewcomerAdds(v, w, more);
  }

  lemma SortedHotRating(ws: seq<Weapon>, efficiency: real)
    requires Ordered(Earlier, ws) && forall w :: w in ws ==> w.heat > 0.0
    ensures Rating(Valuation(Mech(efficiency), ws, 0.0, 0.0, 0.0)) == Accumulated(ws, 0.0, false, efficiency)
  {
    FilterAll((w: Weapon) => w.heat > 0.0, ws);
    FilterNone((w: Weapon) => w.heat <= 0.0, ws);
    AlreadySorted(ws);
  }

  lemma AlreadySorted(ws: seq<Weapon>)
    requires Ordered(Earlier, ws)
    ensures Sort(Earlier, ws) == ws
  {
    EarlierIsTotal();
    SortSorts(Earlier, ws);
    OrderedUnique(Earlier, Sort(Earlier, ws), ws);
  }

  const COOL := Weapon(100.0, 1.0)
  const SCORCHING := Weapon(110.0, 10.0)
  const FEW := [COOL, COOL, COOL]

  lemma FewSums()
    ensures Value(FEW) == 300.0 && Heat(FEW) == 3.0
  {
    assert FEW == [COOL] + [COOL] + [COOL];
    SumsAppend([COOL] + [COOL], [COOL]);
    SumsAppend([COOL], [COOL]);
    assert [COOL][1..] == [];
  }

  /** Adding a hot, valuable weapon can lower the rating: it exhausts the efficiency first. */
  lemma AddingAWeaponCanLowerTheRating()
    ensures var v := Valuation(Mech(10.0), FEW, 0.0, 0.0, 0.0);
            Rating(v.(weapons := [SCORCHING] + FEW)) < Rating(v)
  {
    var many := [SCORCHING] + FEW;
    FewSums();
    SortedHotRating(FEW, 10.0);
    SortedHotRating(many, 10.0);
    WithinEfficiencyIsFull(FEW, 0.0, 10.0);
    assert many[1..] == FEW;
    AccumulatedOver(FEW, 10.0, 10.0, 10.0, 10.0);
  }

  // ----- As the server computes it

  method SumOf(ws: seq<Weapon>) returns (value: real, heat: real)
    ensures value == Value(ws) && heat == Heat(ws)
  {
    value, heat := 0.0, 0.0;
    for i := 0 to |ws|
      invariant value == Value(ws[..i]) && heat == Heat(ws[..i])
    {
      assert ws[..i + 1] == ws[..i] + [ws[i]] && [ws[i]][1..] == [];
      SumsAppend(ws[..i], [ws[i]]);
      value, heat := value + ws[i].value, heat + ws[i].heat;
    }
    assert ws[..|ws|] == ws;
  }

  /** Add weapons in order, halving every one after the running heat reaches the efficiency. */
  method AddInOrder(ws: seq<Weapon>, efficiency: real) returns (total: real)
    ensures total == Accumulated(ws, 0.0, false, efficiency)
  {
    total := 0.0;
    var heat, over := 0.0, false;
    for i := 0 to |ws|
      invariant Accumulated(ws, 0.0, false, efficiency) == total + Accumulated(ws[i..], heat, over, efficiency)
    {
      assert ws[i..][1..] == ws[i + 1..];
      if over {
        total := total + ws[i].value / 2.0;
      } else {
        total := total + ws[i].value;
        heat := heat + ws[i].heat;
        over := heat >= efficiency;
      }
    }
  }

  method WeaponBattleRating(v: Valuation) returns (total: real)
    ensures total == Rating(v)
  {
    total := v.ammunition + v.equipment + v.tonnage;
    if v.chassis.Vehicle? {
      var value, _ := SumOf(v.weapons);
      return total + value;
    }
    var cold, _ := SumOf(Cold(v.weapons));
    total := total + cold;
    var hot := Hot(v.weapons);
    var value, heat := SumOf(hot);
    HotSorted(v.weapons);
    SumsIgnoreOrder(Sort(Earlier, hot), hot);
    if heat <= v.chassis.heatEfficiency {
      WithinEfficiencyIsFull(Sort(Earlier, hot), 0.0, v.chassis.heatEfficiency);
      return total + value;
    }
    var ordered := AddInOrder(Sort(Earlier, hot), v.chassis.heatEfficiency);
    return total + ordered;
  }
}
