/** Two-factor codes: five failures lock the device for thirty seconds. */
module FailureThrottle {
  import opened BillingTypes

  const MAX_FAILURES := 5
  const LOCK: Time := 30 * 1_000_000

  datatype Device = Device(failed: nat, lockedUntil: Option<Time>, usedAt: Option<Time>, lastStep: Option<int>)

  predicate LockIsActive(d: Device, now: Time) {
    d.lockedUntil.Some? && d.lockedUntil.value > now
  }

  function RegisterFailure(d: Device, now: Time): Device {
    if d.failed + 1 >= MAX_FAILURES then d.(lockedUntil := Some(now + LOCK), failed := 0)
    else d.(failed := d.failed + 1)
  }

  function RegisterSuccess(d: Device, now: Time, step: Option<int>): Device {
    Device(0, None, Some(now), if step.Some? then step else d.lastStep)
  }

  /** A wrong code sent at `now`: while the lock is active it is not even looked at. */
  function WrongCode(d: Device, now: Time): Device {
    if LockIsActive(d, now) then d else RegisterFailure(d, now)
  }

  /** How many of the wrong codes were checked and failed. */
  function Failures(d: Device, times: seq<Time>): nat
    decreases |times|
  {
    if times == [] then 0
    else (if LockIsActive(d, times[0]) then 0 else 1) + Failures(WrongCode(d, times[0]), times[1..])
  }

  predicate InSpan(times: seq<Time>, from: Time, to: Time) {
    && (forall i :: 0 <= i < |times| ==> from <= times[i] <= to)
    && (forall i, j :: 0 <= i < j < |times| ==> times[i] <= times[j])
  }

  datatype Event = Failed(at: Time) | Passed(at: Time, step: Option<int>)

  /** A right code is not looked at either while the lock is active. */
  function After(d: Device, e: Event): Device {
    match e
    case Failed(at) => WrongCode(d, at)
    case Passed(at, step) => if LockIsActive(d, at) then d else RegisterSuccess(d, at, step)
  }

  /** Any past of the device. */
  function Past(d: Device, events: seq<Event>): Device {
    if events == [] then d
    else
      After(Past(d, events[..|events| - 1]), events[|events| - 1])
  }

  const NEW_DEVICE := Device(0, None, None, None)

  lemma {:induction false} CounterStaysLow(d: Device, events: seq<Event>)
    requires d.failed < MAX_FAILURES
    ensures Past(d, events).failed < MAX_FAILURES
  {
    if events != [] { CounterStaysLow(d, events[..|events| - 1]); }
  }

  /** What is still possible from an instant on: the rest of this round, then five for every lock that can expire. */
  function Budget(d: Device, from: Time, to: Time): int {
    var start := if LockIsActive(d, from) then d.lockedUntil.value else from;
    if start > to then 0 else MAX_FAILURES - d.failed + MAX_FAILURES * ((to - start) / LOCK)
  }

  lemma OneLockLess(span: int)
    requires span >= LOCK
    ensures (span - LOCK) / LOCK == span / LOCK - 1
  {}

  lemma {:induction false} FailuresWithinBudget(d: Device, times: seq<Time>, from: Time, to: Time)
    requires d.failed < MAX_FAILURES && InSpan(times, from, to)
    ensures Failures(d, times) <= (if times == [] then 0 else Budget(d, times[0], to))
    decreases |times|
  {
    if times != [] {
      var t, rest := times[0], times[1..];
      var next := WrongCode(d, t);
      FailuresWithinBudget(next, rest, t, to);
      if rest != [] {
        BudgetShrinks(next, t, rest[0], to);
      }
      BudgetIsSpent(d, t, to);
    }
  }

  /** A checked wrong code takes one off the budget, and the fifth, which locks, the thirty seconds ahead. */
  lemma BudgetIsSpent(d: Device, t: Time, to: Time)
    requires t <= to && d.failed < MAX_FAILURES
    ensures 0 <= Budget(WrongCode(d, t), t, to)
    ensures Budget(WrongCode(d, t), t, to) + (if LockIsActive(d, t) then 0 else 1) <= Budget(d, t, to)
  {
    if LockIsActive(d, t) {
      if d.lockedUntil.value <= to { QuotientsGrow(to - d.lockedUntil.value, to - t); }
    } else {
      QuotientsGrow(0, to - t);
      if to - t >= LOCK {
        QuotientsGrow(to - t - LOCK, to - t);
        OneLockLess(to - t);
      }
    }
  }

  lemma BudgetShrinks(d: Device, t: Time, later: Time, to: Time)
    requires t <= later <= to && d.failed < MAX_FAILURES
    ensures 0 <= Budget(d, later, to) <= Budget(d, t, to) || (LockIsActive(d, later) && d.lockedUntil.value > to)
  {
    var a := if LockIsActive(d, t) then d.lockedUntil.value else t;
    var b := if LockIsActive(d, later) then d.lockedUntil.value else later;
    if b <= to {
      QuotientsGrow(to - b, to - a);
    }
  }

  lemma QuotientsGrow(x: int, y: int)
    requires 0 <= x <= y
    ensures 0 <= x / LOCK <= y / LOCK
  {}

  /**
    Whatever happened before, a span of so many seconds sees at most five failures for each full
    thirty seconds, and five more.
   */
  lemma ThrottleBound(events: seq<Event>, times: seq<Time>, from: Time, seconds: nat)
    requires InSpan(times, from, from + seconds * 1_000_000)
    ensures Failures(Past(NEW_DEVICE, events), times) <= 5 * (seconds / 30) + 5
  {
    var d := Past(NEW_DEVICE, events);
    CounterStaysLow(NEW_DEVICE, events);
    var to := from + seconds * 1_000_000;
    FailuresWithinBudget(d, times, from, to);
    if times != [] {
      var start := if LockIsActive(d, times[0]) then d.lockedUntil.value else times[0];
      if start <= to {
        QuotientsGrow(to - start, seconds * 1_000_000);
        SecondsAndLocks(seconds);
      }
    }
  }

  lemma SecondsAndLocks(seconds: nat)
    ensures seconds * 1_000_000 / LOCK == seconds / 30
  {
    assert seconds == seconds / 30 * 30 + seconds % 30;
  }

  /** Five wrong codes at once, each time the lock has just run out. */
  function Bursts(from: Time, rounds: nat): seq<Time>
    decreases rounds
  {
    if rounds == 0 then [] else [from, from, from, from, from] + Bursts(from + LOCK, rounds - 1)
  }

  lemma {:induction false} BurstsInSpan(from: Time, rounds: nat)
    requires rounds > 0
    ensures InSpan(Bursts(from, rounds), from, from + (rounds - 1) * LOCK)
    decreases rounds
  {
    if rounds > 1 { BurstsInSpan(from + LOCK, rounds - 1); }
  }

  lemma {:induction false} BurstsAllFail(d: Device, from: Time, rounds: nat)
    requires d.failed == 0 && !LockIsActive(d, from)
    ensures Failures(d, Bursts(from, rounds)) == MAX_FAILURES * rounds
    decreases rounds
  {
    if rounds > 0 {
      var rest := Bursts(from + LOCK, rounds - 1);
      FiveFail(d, from, rest);
      BurstsAllFail(d.(lockedUntil := Some(from + LOCK)), from + LOCK, rounds - 1);
    }
  }

  lemma OneFails(d: Device, t: Time, rest: seq<Time>)
    requires !LockIsActive(d, t)
    ensures Failures(d, [t] + rest) == 1 + Failures(RegisterFailure(d, t), rest)
  {
    assert ([t] + rest)[1..] == rest;
  }

  lemma FiveFail(d: Device, t: Time, rest: seq<Time>)
    requires d.failed == 0 && !LockIsActive(d, t)
    ensures Failures(d, [t, t, t, t, t] + rest) == 5 + Failures(d.(lockedUntil := Some(t + LOCK)), rest)
  {
    OneFails(d, t, [t, t, t, t] + rest);
    OneFails(d.(failed := 1), t, [t, t, t] + rest);
    OneFails(d.(failed := 2), t, [t, t] + rest);
    OneFails(d.(failed := 3), t, [t] + rest);
    OneFails(d.(failed := 4), t, rest);
    assert [t] + ([t, t, t, t] + rest) == [t, t, t, t, t] + rest;
    assert [t] + ([t, t, t] + rest) == [t, t, t, t] + rest;
    assert [t] + ([t, t] + rest) == [t, t, t] + rest;
    assert [t] + ([t] + rest) == [t, t] + rest;
  }

  /** The fifth wrong code in a row locks for thirty seconds, during which no code is looked at, right or wrong. */
  lemma FifthFailureLocks(d: Device, t: Time, later: Time, step: Option<int>)
    requires d.failed == 4 && !LockIsActive(d, t) && t <= later
    ensures var locked := WrongCode(d, t);
            && (LockIsActive(locked, later) <==> later < t + 30_000_000)
            && (later < t + 30_000_000 ==>
                  WrongCode(locked, later) == locked
                  && Past(locked, [Failed(later)]) == locked && Past(locked, [Passed(later, step)]) == locked)
            && locked.usedAt == d.usedAt && locked.lastStep == d.lastStep
  {
    assert [Failed(later)][..0] == [] && [Passed(later, step)][..0] == [];
  }

  /** Fewer than five only count. */
  lemma EarlierFailuresCount(d: Device, t: Time)
    requires d.failed < 4 && !LockIsActive(d, t)
    ensures WrongCode(d, t) == d.(failed := d.failed + 1)
  {}

  lemma PastOfOne(d: Device, e: Event)
    ensures Past(d, [e]) == After(d, e)
  {
    assert [e][..0] == [];
  }

  /** A code that passes starts the count over and notes its time step, so that it takes five new failures to lock. */
  lemma SuccessStartsOver(d: Device, t: Time, step: Option<int>, later: Time)
    requires !LockIsActive(d, t) && t <= later
    ensures var passed := Past(d, [Passed(t, step)]);
            && passed.usedAt == Some(t) && passed.lastStep == (if step.Some? then step else d.lastStep)
            && Failures(passed, [later, later, later, later, later]) == 5
            && !LockIsActive(Past(passed, [Failed(later), Failed(later), Failed(later), Failed(later)]), later)
  {
    PastOfOne(d, Passed(t, step));
    var passed := Past(d, [Passed(t, step)]);
    FiveFail(passed, later, []);
    assert [later, later, later, later, later] + [] == [later, later, later, later, later];
    FourFail(passed, later);
  }

  lemma FourFail(d: Device, t: Time)
    requires d.failed == 0 && d.lockedUntil == None
    ensures Past(d, [Failed(t), Failed(t), Failed(t), Failed(t)]) == d.(failed := 4)
  {
    var four := [Failed(t), Failed(t), Failed(t), Failed(t)];
    assert four[..3] == [Failed(t), Failed(t), Failed(t)] && four[..3][..2] == [Failed(t), Failed(t)];
    assert four[..3][..2][..1] == [Failed(t)] && [Failed(t)][..0] == [];
    assert Past(d, [Failed(t)]) == d.(failed := 1);
    assert Past(d, [Failed(t), Failed(t)]) == d.(failed := 2);
    assert Past(d, four[..3]) == d.(failed := 3);
  }

  /** The bound is reached, for every number of completed locks. */
  lemma ThrottleBoundIsReached(from: Time, locks: nat)
    ensures InSpan(Bursts(from, locks + 1), from, from + locks * 30 * 1_000_000)
    ensures Failures(NEW_DEVICE, Bursts(from, locks + 1)) == 5 * locks + 5
  {
    BurstsInSpan(from, locks + 1);
    BurstsAllFail(NEW_DEVICE, from, locks + 1);
  }
}

/** The device row. */
module ThrottledDevice {
  import opened BillingTypes
  import opened FailureThrottle

  class TotpDevice {
    var failedAttempts: nat
    var lockedUntil: Option<Time>
    var lastUsedAt: Option<Time>
    var lastVerifiedTimestep: Option<int>

    function View(): Device
      reads this
    {
      Device(failedAttempts, lockedUntil, lastUsedAt, lastVerifiedTimestep)
    }

    constructor ()
      ensures View() == NEW_DEVICE
    {
      failedAttempts, lockedUntil, lastUsedAt, lastVerifiedTimestep := 0, None, None, None;
    }

    method RegisterFailureOnDevice(now: Time) returns (until: Option<Time>)
      modifies this
      ensures View() == RegisterFailure(old(View()), now) && until == lockedUntil
    {
      failedAttempts := failedAttempts + 1;
      if failedAttempts >= MAX_FAILURES {
        lockedUntil := Some(now + LOCK);
        failedAttempts := 0;
      }
      return lockedUntil;
    }

    method RegisterSuccessOnDevice(now: Time, step: Option<int>)
      modifies this
      ensures View() == RegisterSuccess(old(View()), now, step)
    {
      failedAttempts := 0;
      lockedUntil := None;
      lastUsedAt := Some(now);
      if step.Some? {
        lastVerifiedTimestep := step;
      }
    }
  }
}
