/** The streak hysteresis of a source's balance lock. */
module BalanceLock {
  import opened Options

  datatype Reading = Low | High | Between

  function ReadingOf(value: real, pauseBelow: real, resumeAt: real): Reading
  {
    if value < pauseBelow then Low else if value >= resumeAt then High else Between
  }

  datatype Streaks = Streaks(low: nat, recovery: nat, locked: bool)

  /** The streak part of applySuccess for an enabled source. */
  function Applied(s: Streaks, r: Reading): Streaks
  {
    match r
    case Low => Streaks(s.low + 1, 0, s.locked || s.low + 1 >= 2)
    case High => Streaks(0, s.recovery + 1, s.locked && s.recovery + 1 < 2)
    case Between => Streaks(0, 0, s.locked)
  }

  class SourceState {
    const pauseBelow: real
    const resumeAt: real
    var enabled: bool
    var balance: Option<real>
    var low: nat
    var recovery: nat
    var locked: bool

    ghost function View(): Streaks
      reads this
    {
      Streaks(low, recovery, locked)
    }

    constructor (pauseBelow: real, resumeAt: real, enabled: bool)
      ensures View() == Streaks(0, 0, false) && this.pauseBelow == pauseBelow && this.resumeAt == resumeAt
    {
      this.pauseBelow, this.resumeAt, this.enabled := pauseBelow, resumeAt, enabled;
      balance, low, recovery, locked := None, 0, 0, false;
    }

    method ApplySuccess(value: real)
      modifies this
      ensures enabled == old(enabled) && balance == Some(value)
      ensures View() == if enabled then Applied(old(View()), ReadingOf(value, pauseBelow, resumeAt)) else Streaks(0, 0, false)
    {
      balance := Some(value);
      if !enabled {
        low, recovery, locked := 0, 0, false;
      } else if value < pauseBelow {
        low, recovery := low + 1, 0;
        if low >= 2 { locked := true; }
      } else if value >= resumeAt {
        recovery, low := recovery + 1, 0;
        if recovery >= 2 { locked := false; }
      } else {
        low, recovery := 0, 0;
      }
    }
  }

  const START := Streaks(0, 0, false)

  function After(readings: seq<Reading>): Streaks
  {
    if readings == [] then START else Applied(After(readings[..|readings| - 1]), readings[|readings| - 1])
  }

  /** Two equal readings in a row, neither in between, decide the lock. */
  predicate Decides(readings: seq<Reading>, n: nat)
  {
    0 < n < |readings| && readings[n] == readings[n - 1] && !readings[n].Between?
  }

  lemma {:induction false} StreakMeaning(readings: seq<Reading>)
    requires readings != []
    ensures var s := After(readings);
            && (s.low >= 1 <==> readings[|readings| - 1].Low?)
            && (s.recovery >= 1 <==> readings[|readings| - 1].High?)
            && (s.low >= 2 || s.recovery >= 2 <==> Decides(readings, |readings| - 1))
  {
    if |readings| > 1 { StreakMeaning(readings[..|readings| - 1]); }
  }

  /** The reading of the last deciding pair. */
  function LastDecision(readings: seq<Reading>): Option<Reading>
  {
    if readings == [] then None
    else if Decides(readings, |readings| - 1) then Some(readings[|readings| - 1])
    else LastDecision(readings[..|readings| - 1])
  }

  lemma {:induction false} LockedByReadings(readings: seq<Reading>)
    ensures After(readings).locked <==> LastDecision(readings) == Some(Low)
  {
    if readings != [] {
      var before := readings[..|readings| - 1];
      LockedByReadings(before);
      StreakMeaning(readings);
      if before != [] { StreakMeaning(before); }
    }
  }

  predicate LowPair(readings: seq<Reading>, n: int)
  {
    0 < n < |readings| && readings[n - 1].Low? && readings[n].Low?
  }

  predicate HighPair(readings: seq<Reading>, n: int)
  {
    0 < n < |readings| && readings[n - 1].High? && readings[n].High?
  }

  lemma {:induction false} LastDecisionMeans(readings: seq<Reading>)
    ensures LastDecision(readings) == Some(Low) <==>
              exists n | LowPair(readings, n) :: forall m | HighPair(readings, m) :: m <= n
  {
    if readings != [] {
      var before, last := readings[..|readings| - 1], |readings| - 1;
      LastDecisionMeans(before);
      assert forall n :: LowPair(readings, n) <==> LowPair(before, n) || (n == last && Decides(readings, last) && readings[last].Low?);
      assert forall n :: HighPair(readings, n) <==> HighPair(before, n) || (n == last && Decides(readings, last) && readings[last].High?);
      assert Decides(readings, last) ==> LowPair(readings, last) || HighPair(readings, last);
    }
  }

  function Readings(values: seq<real>, pauseBelow: real, resumeAt: real): seq<Reading>
  {
    seq(|values|, k requires 0 <= k < |values| => ReadingOf(values[k], pauseBelow, resumeAt))
  }

  /** Two balances in a row below the pause threshold. */
  predicate Fell(values: seq<real>, pauseBelow: real, n: int)
  {
    0 < n < |values| && values[n - 1] < pauseBelow && values[n] < pauseBelow
  }

  /** Two balances in a row at the resume threshold or above, and not below the other. */
  predicate Rose(values: seq<real>, pauseBelow: real, resumeAt: real, n: int)
  {
    && 0 < n < |values| && values[n - 1] >= resumeAt && values[n] >= resumeAt
    && values[n - 1] >= pauseBelow && values[n] >= pauseBelow
  }

  /** After any run of balances an enabled source is locked exactly when two in a
      row were too low and no two in a row since were high enough again; a single
      balance never changes the lock. */
  lemma LockedExactly(values: seq<real>, pauseBelow: real, resumeAt: real)
    ensures After(Readings(values, pauseBelow, resumeAt)).locked <==>
              exists n | Fell(values, pauseBelow, n) :: forall m | Rose(values, pauseBelow, resumeAt, m) :: m <= n
  {
    var readings := Readings(values, pauseBelow, resumeAt);
    LockedByReadings(readings);
    LastDecisionMeans(readings);
    assert forall n :: LowPair(readings, n) <==> Fell(values, pauseBelow, n);
    assert forall n :: HighPair(readings, n) <==> Rose(values, pauseBelow, resumeAt, n);
  }
}
