/** Two-letter battlefield labels, unique on each map whatever the dice. */
module BattlefieldIdentity {
  import opened Prelude

  /** A unit's map if placed, its effective label, and its position in its own dice stream. */
  datatype Unit = Unit(ground: Option<int>, tag: Option<string>, dice: nat)

  type Units = map<int, Unit>

  /** Successive letters a unit's dice would roll. */
  type Dice = nat -> nat

  const RETRIES := 4096
  const LETTERS := 26
  const LABELS := 676

  datatype LabelError = Unplaced | NoneAvailable

  function Letter(k: nat): char
    requires k < LETTERS
  {
    'A' + k as char
  }

  /** Labels in alphabetical order. */
  function LabelAt(k: nat): string
    requires k < LABELS
  {
    [Letter(k / LETTERS), Letter(k % LETTERS)]
  }

  predicate IsLetter(c: char) { 'A' <= c <= 'Z' }

  predicate TwoLetters(s: string) { |s| == 2 && IsLetter(s[0]) && IsLetter(s[1]) }

  function Upper(c: char): char { if 'a' <= c <= 'z' then c - 32 as char else c }

  function ClampLetter(c: char): char {
    var u := Upper(c);
    if u < 'A' then 'A' else if u > 'Z' then 'Z' else u
  }

  /** The label a preference asks for: its first two bytes, forced into capital letters. */
  function Preferred(s: string): string
    requires |s| >= 2
  {
    [ClampLetter(s[0]), ClampLetter(s[1])]
  }

  function Rolled(dice: Dice, at: nat): string {
    [Letter(dice(at) % LETTERS), Letter(dice(at + 1) % LETTERS)]
  }

  // ----- Labels in use

  predicate OnMap(units: Units, id: int, ground: int) { id in units && units[id].ground == Some(ground) }

  function Neighbours(units: Units, ground: int, except: int): set<int> {
    set id | id in units && id != except && OnMap(units, id, ground) && units[id].tag.Some?
  }

  function Occupied(units: Units, ground: int, except: int): set<string> {
    set id | id in Neighbours(units, ground, except) && id in units && units[id].tag.Some? :: units[id].tag.value
  }

  /** No two placed units of a map show the same label. */
  ghost predicate Unambiguous(units: Units) {
    forall i, j :: i in units && j in units && i != j ==> Apart(units[i], units[j])
  }

  predicate Apart(a: Unit, b: Unit) { a.ground.Some? && a.ground == b.ground && a.tag.Some? ==> a.tag != b.tag }

  /** Distinct positions give distinct labels. */
  lemma LabelAtInjective(j: nat, k: nat)
    requires j < LABELS && k < LABELS && j != k
    ensures LabelAt(j) != LabelAt(k)
  {
    assert j / LETTERS != k / LETTERS || j % LETTERS != k % LETTERS;
    assert LabelAt(j)[0] != LabelAt(k)[0] || LabelAt(j)[1] != LabelAt(k)[1];
  }

  /** The 676 positions are exactly the two-letter labels, in alphabetical order. */
  lemma LabelAtExactly(s: string)
    ensures TwoLetters(s) <==> exists k: nat :: k < LABELS && LabelAt(k) == s
  {
    if TwoLetters(s) {
      var a, b := (s[0] - 'A') as nat, (s[1] - 'A') as nat;
      var k := a * LETTERS + b;
      assert k / LETTERS == a && k % LETTERS == b && k < LABELS;
      assert LabelAt(k) == s;
    }
  }

  lemma LabelAtAscends(j: nat, k: nat)
    requires j < k < LABELS
    ensures LabelAt(j)[0] < LabelAt(k)[0] || (LabelAt(j)[0] == LabelAt(k)[0] && LabelAt(j)[1] < LabelAt(k)[1])
  {
    assert j / LETTERS < k / LETTERS || (j / LETTERS == k / LETTERS && j % LETTERS < k % LETTERS);
  }

  /** A preference becomes two capital letters: capitals stay, small letters rise, the rest goes to the nearer end. */
  lemma PreferredExactly(s: string, i: nat)
    requires |s| >= 2 && i < 2
    ensures TwoLetters(Preferred(s))
    ensures IsLetter(s[i]) ==> Preferred(s)[i] == s[i]
    ensures 'a' <= s[i] <= 'z' ==> Preferred(s)[i] as int == s[i] as int - 32
    ensures s[i] < 'A' ==> Preferred(s)[i] == 'A'
    ensures s[i] > 'z' || 'Z' < s[i] < 'a' ==> Preferred(s)[i] == 'Z'
  {
  }

  /** A roll spells the label whose first letter is the first die and whose second letter is the second. */
  lemma RolledExactly(dice: Dice, at: nat, k: nat)
    requires k < LABELS
    ensures Rolled(dice, at) == LabelAt(k) <==> dice(at) % 26 == k / 26 && dice(at + 1) % 26 == k % 26
  {
    var rolled, spelled := Rolled(dice, at), LabelAt(k);
    assert rolled == spelled <==> rolled[0] == spelled[0] && rolled[1] == spelled[1];
  }

  function FirstLabels(n: nat): set<string>
    requires n <= LABELS
  {
    if n == 0 then {} else FirstLabels(n - 1) + {LabelAt(n - 1)}
  }

  lemma {:induction false} FirstLabelsFacts(n: nat, k: nat)
    requires n <= LABELS && k < LABELS
    ensures LabelAt(k) in FirstLabels(n) <==> k < n
  {
    if n > 0 {
      FirstLabelsFacts(n - 1, k);
      if k != n - 1 {
        LabelAtInjective(k, n - 1);
      }
    }
  }

  lemma {:induction false} FirstLabelsCount(n: nat)
    requires n <= LABELS
    ensures |FirstLabels(n)| == n
  {
    if n > 0 {
      FirstLabelsCount(n - 1);
      FirstLabelsFacts(n - 1, n - 1);
    }
  }

  lemma {:induction false} FirstLabelsWithin(n: nat, used: set<string>)
    requires n <= LABELS && forall k: nat :: k < LABELS ==> LabelAt(k) in used
    ensures FirstLabels(n) <= used
  {
    if n > 0 {
      FirstLabelsWithin(n - 1, used);
    }
  }

  function LabelsOf(units: Units, ids: set<int>): set<string> {
    set id | id in ids && id in units && units[id].tag.Some? :: units[id].tag.value
  }

  lemma {:induction false} FewerLabelsThanUnits(units: Units, ids: set<int>)
    ensures |LabelsOf(units, ids)| <= |ids|
    decreases |ids|
  {
    if id: int :| id in ids {
      FewerLabelsThanUnits(units, ids - {id});
      var own := if id in units && units[id].tag.Some? then {units[id].tag.value} else {};
      assert LabelsOf(units, ids) <= LabelsOf(units, ids - {id}) + own;
      SizeOfPart(LabelsOf(units, ids), LabelsOf(units, ids - {id}) + own);
    } else {
      assert LabelsOf(units, ids) == {};
    }
  }

  /** Exhausting the labels takes at least 676 other units on the map. */
  lemma ExhaustionNeedsManyUnits(units: Units, ground: int, except: int)
    requires forall k: nat :: k < LABELS ==> LabelAt(k) in Occupied(units, ground, except)
    ensures |Neighbours(units, ground, except)| >= LABELS
  {
    var ids := Neighbours(units, ground, except);
    assert Occupied(units, ground, except) == LabelsOf(units, ids);
    FewerLabelsThanUnits(units, ids);
    FirstLabelsCount(LABELS);
    FirstLabelsWithin(LABELS, Occupied(units, ground, except));
    SizeOfPart(FirstLabels(LABELS), Occupied(units, ground, except));
  }

  /** Giving a unit a label nobody else on its map shows keeps the map unambiguous. */
  lemma FreshLabelKeepsUnambiguous(units: Units, id: int, ground: int, tag: string, dice: nat)
    requires Unambiguous(units) && OnMap(units, id, ground) && tag !in Occupied(units, ground, id)
    ensures Unambiguous(units[id := Unit(Some(ground), Some(tag), dice)])
  {
    var after := units[id := Unit(Some(ground), Some(tag), dice)];
    forall i, j | i in after && j in after && i != j
      ensures Apart(after[i], after[j])
    {
      if i == id || j == id {
        var other := if i == id then j else i;
        if after[other].tag.Some? && after[other].ground == Some(ground) {
          assert other in Neighbours(units, ground, id);
          assert after[other].tag.value in Occupied(units, ground, id);
        }
      }
    }
  }

  // ----- Assignment

  /** Position `k` holds the alphabetically first free label. */
  ghost predicate FirstFreeAt(used: set<string>, k: nat) {
    k < LABELS && LabelAt(k) !in used && forall j: nat :: j < k ==> LabelAt(j) in used
  }

  method FirstFree(used: set<string>) returns (r: Option<string>)
    ensures r.None? <==> forall k: nat :: k < LABELS ==> LabelAt(k) in used
    ensures r.Some? ==> TwoLetters(r.value) && exists k: nat :: FirstFreeAt(used, k) && r.value == LabelAt(k)
  {
    for k := 0 to LABELS
      invariant forall j: nat :: j < k ==> LabelAt(j) in used
    {
      if LabelAt(k) !in used {
        assert FirstFreeAt(used, k);
        return Some(LabelAt(k));
      }
    }
    return None;
  }

  predicate UsedRoll(used: set<string>, dice: Dice, at: nat, n: nat) { Rolled(dice, at + 2 * n) in used }

  /** The `n`th pair of dice is the first to spell a free label. */
  ghost predicate FirstFreeRoll(used: set<string>, dice: Dice, at: nat, n: nat) {
    !UsedRoll(used, dice, at, n) && forall m: nat :: m < n ==> UsedRoll(used, dice, at, m)
  }

  predicate Free(used: set<string>, tag: Option<string>) { tag.Some? && tag.value !in used }

  /** Roll until a free label appears, giving up after the retry bound. */
  method Retry(used: set<string>, start: Option<string>, dice: Dice, at: nat)
    returns (tag: Option<string>, next: nat)
    requires start.Some? ==> TwoLetters(start.value)
    ensures tag.Some? ==> TwoLetters(tag.value)
    ensures at <= next <= at + 2 * RETRIES
    ensures Free(used, start) ==> tag == start && next == at
    ensures !Free(used, start) ==>
      forall n: nat :: n < RETRIES && FirstFreeRoll(used, dice, at, n) ==>
        tag == Some(Rolled(dice, at + 2 * n)) && next == at + 2 * n + 2
    ensures !Free(used, start) && Free(used, tag) ==> exists n: nat :: n < RETRIES && FirstFreeRoll(used, dice, at, n)
  {
    tag, next := start, at;
    for i := 0 to RETRIES
      invariant next == at + 2 * i
      invariant tag.Some? ==> TwoLetters(tag.value)
      invariant i == 0 ==> tag == start
      invariant i > 0 ==> tag == Some(Rolled(dice, at + 2 * (i - 1))) && !Free(used, start)
      invariant forall n: nat :: n < i - 1 ==> UsedRoll(used, dice, at, n)
    {
      if tag.Some? && tag.value !in used {
        assert i > 0 ==> FirstFreeRoll(used, dice, at, i - 1);
        return;
      }
      assert i > 0 ==> UsedRoll(used, dice, at, i - 1);
      tag := Some(Rolled(dice, next));
      next := next + 2;
    }
    assert Free(used, tag) ==> FirstFreeRoll(used, dice, at, RETRIES - 1);
  }

  /** A usable argument overrides the configured preference. */
  function Wish(preferred: Option<string>, configured: Option<string>): Option<string>
    requires configured.Some? ==> |configured.value| >= 2
  {
    if preferred.Some? && |preferred.value| >= 2 then Some(Preferred(preferred.value))
    else if configured.Some? then Some(Preferred(configured.value)) else None
  }

  /** The wish if free, else the first free roll within the bound, else the first free label. */
  ghost predicate Chosen(used: set<string>, wish: Option<string>, dice: Dice, at: nat, tag: string, next: nat) {
    if Free(used, wish) then tag == wish.value && next == at
    else
      (forall n: nat :: n < RETRIES && FirstFreeRoll(used, dice, at, n) ==>
        tag == Rolled(dice, at + 2 * n) && next == at + 2 * n + 2) &&
      ((forall n: nat :: n < RETRIES ==> UsedRoll(used, dice, at, n)) ==>
        exists k: nat :: FirstFreeAt(used, k) && tag == LabelAt(k))
  }

  method Choose(used: set<string>, wish: Option<string>, dice: Dice, at: nat, available: string)
    returns (chosen: string, next: nat)
    requires wish.Some? ==> TwoLetters(wish.value)
    requires TwoLetters(available) && exists k: nat :: FirstFreeAt(used, k) && available == LabelAt(k)
    ensures TwoLetters(chosen) && chosen !in used && at <= next <= at + 2 * RETRIES
    ensures Chosen(used, wish, dice, at, chosen, next)
  {
    var tag;
    tag, next := Retry(used, wish, dice, at);
    if Free(used, tag) {
      return tag.value, next;
    }
    assert forall n: nat :: n < RETRIES ==> !FirstFreeRoll(used, dice, at, n);
    return available, next;
  }

  class Battlefield {
    var units: Units

    constructor ()
      ensures units == map[]
    {
      units := map[];
    }

    /** Give a unit its wish, a free roll or the first free label; with none left, change nothing. */
    method Assign(id: int, preferred: Option<string>, configured: Option<string>, dice: Dice)
      returns (r: Result<string, LabelError>)
      requires configured.Some? ==> |configured.value| >= 2
      modifies this
      ensures !(id in old(units) && old(units)[id].ground.Some?) ==> r == Err(Unplaced)
      ensures r.Err? ==> units == old(units)
      ensures id in old(units) && old(units)[id].ground.Some? ==>
        var unit := old(units)[id];
        var used := Occupied(old(units), unit.ground.value, id);
        (r.Err? <==> forall k: nat :: k < LABELS ==> LabelAt(k) in used) &&
        (r.Err? ==> r.error == NoneAvailable && |Neighbours(old(units), unit.ground.value, id)| >= LABELS) &&
        (r.Ok? ==>
          TwoLetters(r.value) && r.value !in used && id in units &&
          units == old(units)[id := Unit(unit.ground, Some(r.value), units[id].dice)] &&
          unit.dice <= units[id].dice <= unit.dice + 2 * RETRIES &&
          Chosen(used, Wish(preferred, configured), dice, unit.dice, r.value, units[id].dice))
      ensures Unambiguous(old(units)) ==> Unambiguous(units)
      ensures r.Ok? && preferred.Some? && |preferred.value| >= 2 &&
              Preferred(preferred.value) !in Occupied(old(units), old(units)[id].ground.value, id) ==>
                r.value == Preferred(preferred.value) && units[id].dice == old(units)[id].dice
      ensures r.Ok? && !(preferred.Some? && |preferred.value| >= 2) && configured.Some? &&
              Preferred(configured.value) !in Occupied(old(units), old(units)[id].ground.value, id) ==>
                r.value == Preferred(configured.value) && units[id].dice == old(units)[id].dice
    {
      if !(id in units && units[id].ground.Some?) {
        return Err(Unplaced);
      }
      var unit := units[id];
      var used := Occupied(units, unit.ground.value, id);
      var available := FirstFree(used);
      if available.None? {
        ExhaustionNeedsManyUnits(units, unit.ground.value, id);
        return Err(NoneAvailable);
      }
      var chosen, next := Choose(used, Wish(preferred, configured), dice, unit.dice, available.value);
      if Unambiguous(units) {
        FreshLabelKeepsUnambiguous(units, id, unit.ground.value, chosen, next);
      }
      units := units[id := Unit(unit.ground, Some(chosen), next)];
      return Ok(chosen);
    }
  }

  // ----- Validation

  predicate Printable(s: string) {
    2 <= |s| <= 7 && forall i :: 0 <= i < |s| ==> IsLetter(s[i]) || '0' <= s[i] <= '9'
  }

  predicate WellLabelled(u: Unit) {
    (u.tag.Some? ==> Printable(u.tag.value)) && (u.ground.Some? ==> u.tag.Some?)
  }

  /** Saved labels are printable, every placed unit has one, and none repeats on a map. */
  ghost predicate ValidRoster(roster: seq<Unit>) {
    (forall i :: 0 <= i < |roster| ==> WellLabelled(roster[i])) &&
    forall i, j :: 0 <= i < j < |roster| ==> Apart(roster[i], roster[j])
  }

  /** One pass over the units, growing the set of labels seen on each map. */
  method Validate(roster: seq<Unit>) returns (ok: bool)
    ensures ok <==> ValidRoster(roster)
  {
    var used: set<(int, string)> := {};
    for k := 0 to |roster|
      invariant forall i :: 0 <= i < k ==> WellLabelled(roster[i])
      invariant forall i, j :: 0 <= i < j < k ==> Apart(roster[i], roster[j])
      invariant forall i :: 0 <= i < k && roster[i].ground.Some? ==>
                  (roster[i].ground.value, roster[i].tag.value) in used
      invariant forall p :: p in used ==>
        exists i :: 0 <= i < k && roster[i].ground == Some(p.0) && roster[i].tag == Some(p.1)
    {
      var unit := roster[k];
      if unit.tag.Some? && !Printable(unit.tag.value) {
        return false;
      }
      if unit.ground.Some? {
        if unit.tag.None? {
          return false;
        }
        if (unit.ground.value, unit.tag.value) in used {
          ghost var i :| 0 <= i < k && roster[i].ground == unit.ground && roster[i].tag == unit.tag;
          assert !Apart(roster[i], roster[k]);
          return false;
        }
        used := used + {(unit.ground.value, unit.tag.value)};
      }
    }
    return true;
  }
}
