/** MASC and supercharger activation checks (Total Warfare p. 137). */
module BoosterChecks {
  import opened Prelude

  datatype Booster = Masc | Supercharger

  datatype BoosterState = BoosterState(enabled: bool, counter: nat, used: bool, rested: bool, failed: bool)

  const LAST_INTERVAL := 5

  predicate Valid(s: BoosterState) { s.counter <= LAST_INTERVAL && (!s.enabled || !s.failed) }

  /** The highest two-dice result that fails at each interval. */
  function FailureThreshold(interval: nat): nat {
    match interval
    case 0 => 2
    case 1 => 2
    case 2 => 4
    case 3 => 6
    case 4 => 10
    case _ => 12
  }

  predicate Fails(interval: nat, roll: nat) { roll <= FailureThreshold(interval) }

  /** No two-dice result passes. */
  ghost predicate CertainlyFails(interval: nat) { forall roll :: 2 <= roll <= 12 ==> Fails(interval, roll) }

  /** Where the next check is made: one up from the last, unless rest has lowered the counter. */
  function NextInterval(s: BoosterState): nat {
    if s.rested then Clamp(s.counter, 1, LAST_INTERVAL) else Smaller(s.counter + 1, LAST_INTERVAL)
  }

  function Rested(s: BoosterState): BoosterState {
    (if s.counter > 0 then s.(counter := s.counter - 1, rested := true) else s).(used := false)
  }

  function ShutDown(s: BoosterState): BoosterState {
    s.(enabled := false, counter := 0, used := false, rested := false)
  }

  /** The check at the end of a turn of use, with its two-dice roll. */
  function Checked(kind: Booster, s: BoosterState, roll: nat): BoosterState {
    var interval := NextInterval(s);
    var after := s.(counter := interval, rested := false, used := false);
    if Fails(interval, roll) && kind.Supercharger? then after.(enabled := false, failed := true) else after
  }

  class Device {
    const kind: Booster
    var state: BoosterState

    constructor (k: Booster)
      ensures kind == k && state == BoosterState(false, 0, false, false, false)
    {
      kind, state := k, BoosterState(false, 0, false, false, false);
    }

    method Shutdown()
      modifies this
      ensures state == ShutDown(old(state))
    {
      state := state.(enabled := false);
      state := state.(counter := 0);
      state := state.(used := false);
      state := state.(rested := false);
    }

    method Rest()
      modifies this
      ensures state == Rested(old(state))
    {
      if state.counter > 0 {
        state := state.(counter := state.counter - 1);
        state := state.(rested := true);
      }
      state := state.(used := false);
    }

    /**
     * One second: an unavailable unit shuts the booster down, an inoperative one switches it off,
     * an active one is in use, and the boundary makes the check of the turn just ended.
     */
    method Advance(running: bool, operational: bool, active: bool, boundary: bool, roll: nat) returns (rolled: bool)
      requires Valid(state)
      modifies this
      ensures Valid(state)
      ensures var switched := if old(state).enabled && !operational then old(state).(enabled := false) else old(state);
              var marked := if active then switched.(used := true) else switched;
              state == (if !running then ShutDown(old(state)) else if !boundary then marked
                        else if marked.used then Checked(kind, marked, roll) else Rested(marked)) &&
              rolled == (running && boundary && marked.used)
    {
      rolled := false;
      if !running {
        Shutdown();
        return;
      }
      if state.enabled && !operational {
        state := state.(enabled := false);
      }
      if active {
        state := state.(used := true);
      }
      if !boundary {
        return;
      }
      if !state.used {
        Rest();
        return;
      }
      var interval := NextInterval(state);
      rolled := true;
      state := state.(counter := interval, rested := false, used := false);
      if roll > FailureThreshold(interval) {
        return;
      }
      if kind.Supercharger? {
        state := state.(enabled := false, failed := true);
      }
    }
  }

  // ----- Consecutive use and rest

  function RestedTurns(s: BoosterState, k: nat): BoosterState {
    if k == 0 then s else Rested(RestedTurns(s, k - 1))
  }

  /** States after successive turns of use, whatever the dice. */
  function UsedTurns(kind: Booster, s: BoosterState, rolls: seq<nat>): BoosterState {
    if rolls == [] then s
    else Checked(kind, UsedTurns(kind, s, rolls[..|rolls| - 1]).(used := true), rolls[|rolls| - 1])
  }

  /** A fresh check's interval, still in effect. */
  predicate JustChecked(s: BoosterState) { 1 <= s.counter <= LAST_INTERVAL && !s.rested && !s.used }

  lemma {:induction false} RestedState(s: BoosterState, k: nat)
    requires JustChecked(s)
    ensures var r := RestedTurns(s, k);
            r.counter == Max(0, s.counter - k) && r.rested == (k > 0) && !r.used &&
            r.enabled == s.enabled && r.failed == s.failed
  {
    if k > 0 {
      RestedState(s, k - 1);
    }
  }

  /** After a check at interval c and k rested turns, the next check's interval in closed form. */
  lemma {:induction false} IntervalAfterRest(kind: Booster, s: BoosterState, roll: nat, k: nat)
    requires Valid(s)
    ensures var c := NextInterval(s);
            NextInterval(RestedTurns(Checked(kind, s, roll), k)) ==
            if k == 0 then Smaller(c + 1, LAST_INTERVAL) else Max(1, c - k)
  {
    RestedState(Checked(kind, s, roll), k);
  }

  /** Each consecutive turn of use is checked one interval higher, up to the last. */
  lemma {:induction false} IntervalClimbs(kind: Booster, s: BoosterState, rolls: seq<nat>)
    requires Valid(s)
    ensures NextInterval(UsedTurns(kind, s, rolls)) == Smaller(NextInterval(s) + |rolls|, LAST_INTERVAL)
    ensures rolls != [] ==> !UsedTurns(kind, s, rolls).rested
  {
    if rolls != [] {
      IntervalClimbs(kind, s, rolls[..|rolls| - 1]);
    }
  }

  /** A check fails on every two-dice result exactly at the last interval. */
  lemma CertainFailureIff(interval: nat)
    requires 1 <= interval <= LAST_INTERVAL
    ensures CertainlyFails(interval) <==> interval == LAST_INTERVAL
  {
    assert Fails(interval, 12) <==> interval == LAST_INTERVAL;
  }

  /** From any valid state, five consecutive turns of use include a check no roll can pass. */
  lemma FiveTurnsCannotAllPass(kind: Booster, s: BoosterState, rolls: seq<nat>)
    requires Valid(s) && |rolls| == LAST_INTERVAL
    ensures exists n :: 0 <= n < |rolls| && CertainlyFails(NextInterval(UsedTurns(kind, s, rolls[..n])))
  {
    var n := LAST_INTERVAL - 1;
    IntervalClimbs(kind, s, rolls[..n]);
    CertainFailureIff(NextInterval(UsedTurns(kind, s, rolls[..n])));
  }

  /** Four do not suffice: a fresh system rolling twelves passes four checks. */
  lemma FourTurnsCanAllPass(kind: Booster, rolls: seq<nat>, n: nat)
    requires rolls == [12, 12, 12, 12] && n < 4
    ensures !Fails(NextInterval(UsedTurns(kind, BoosterState(true, 0, false, false, false), rolls[..n])), rolls[n])
  {
    IntervalClimbs(kind, BoosterState(true, 0, false, false, false), rolls[..n]);
  }

  /** Which two-dice results fail each check: 2, 4, 6 and 10 or less, and at last all of them. */
  lemma FailsExactly(interval: nat, roll: nat)
    requires 1 <= interval <= LAST_INTERVAL
    ensures Fails(interval, roll) <==> roll <= [2, 4, 6, 10, 12][interval - 1]
  {
  }

  /** A shut-down booster starts over at the first interval, and stays failed if it was. */
  lemma ShutdownStartsOver(kind: Booster, s: BoosterState, k: nat)
    ensures var off := ShutDown(s);
            NextInterval(RestedTurns(off, k)) == 1 && !off.enabled && !off.used && off.failed == s.failed
  {
    RestedNothing(ShutDown(s), k);
  }

  lemma {:induction false} RestedNothing(s: BoosterState, k: nat)
    requires s.counter == 0 && !s.used && !s.rested
    ensures RestedTurns(s, k) == s
  {
    if k > 0 {
      RestedNothing(s, k - 1);
    }
  }

  /** A failed check breaks a supercharger for good and only marks the interval of a MASC. */
  lemma CheckOutcome(kind: Booster, s: BoosterState, roll: nat)
    requires Valid(s)
    ensures var c, interval := Checked(kind, s, roll), NextInterval(s);
            c.counter == interval && !c.used && !c.rested &&
            if kind.Supercharger? && roll <= [2, 4, 6, 10, 12][interval - 1] then c.failed && !c.enabled
            else c.failed == s.failed && c.enabled == s.enabled
  {
    FailsExactly(NextInterval(s), roll);
  }

  /** A turn of the clock. */
  datatype Turn = Use(roll: nat) | Rest | Off

  function Played(kind: Booster, s: BoosterState, turns: seq<Turn>): BoosterState {
    if turns == [] then s else
      var before := Played(kind, s, turns[..|turns| - 1]);
      match turns[|turns| - 1]
      case Use(roll) => Checked(kind, before.(used := true), roll)
      case Rest => Rested(before)
      case Off => ShutDown(before)
  }

  /** Over every run the state stays valid, and a failed device stays failed. */
  lemma {:induction false} RunsStayValid(kind: Booster, s: BoosterState, turns: seq<Turn>)
    requires Valid(s)
    ensures Valid(Played(kind, s, turns)) && (s.failed ==> Played(kind, s, turns).failed)
    ensures kind.Masc? && !s.failed ==> !Played(kind, s, turns).failed
  {
    if turns != [] {
      RunsStayValid(kind, s, turns[..|turns| - 1]);
    }
  }
}
