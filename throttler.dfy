/**
 * The call throttler: three counters, the time of the last accepted call and four
 * policies checked in a fixed order (total cap, minimum spacing, daily cap with a
 * reset when the day of month changes, and an inclusive hour window).
 *
 * The clock is an input: `Clock` carries the current instant in milliseconds and the
 * local hour and day of month of any instant.
 */
module Throttling {
  import opened Wrappers
  import opened JsSemantics

  /** Why `execute` refused a call, one per policy, in the order they are checked. */
  datatype Reason = OverMaxCalls | TooSoonAfterLastCall | OverMaxCallsToday | WithinThrottlingHours

  /** `Ran`: `func` was invoked once and `execute` returned true.
      `Throttled(r)`: the throttle callback got `r` and `execute` returned false. */
  datatype Outcome = Ran | Throttled(reason: Reason)

  /** The pair given to `setThrottleHours(start, end)`. */
  datatype HourWindow = HourWindow(start: int, end: int)

  /** The configured limits; a number that is still `undefined` is `None`. */
  datatype Policy = Policy(
    maxCalls: Option<int>,
    maxCallsPerDay: Option<int>,
    minimumTimeBetweenCalls: Option<int>,
    throttleHours: Option<HourWindow>)

  /** The counters and the instant of the last accepted call. */
  datatype Counters = Counters(
    totalCallCount: nat,
    totalThrottledCallCount: nat,
    callsToday: nat,
    lastCallTimestamp: Option<int>)

  /** What the caller's clock says: now, and the local hour and day of month of an instant. */
  datatype Clock = Clock(now: int, hourOf: int -> int, dayOfMonth: int -> int)

  /** The state of a new throttler, and of one after `reset`. */
  const Zero := Counters(0, 0, 0, None)

  /** The hour test of the throttle window: both bounds included, and no wrap past midnight. */
  predicate InWindow(w: HourWindow, hour: int): (b: bool)
    ensures w.start > w.end ==> !b
  {
    hour >= w.start && hour <= w.end
  }

  /** True when the daily cap is set and the day of month differs from that of the last call. */
  predicate DayRolledOver(c: Counters, p: Policy, clock: Clock) {
    Truthy(p.maxCallsPerDay) && Truthy(c.lastCallTimestamp)
    && clock.dayOfMonth(clock.now) != clock.dayOfMonth(c.lastCallTimestamp.value)
  }

  /** `callsToday` as the daily cap sees it, after the day-rollover reset. */
  function CallsTodayAtCheck(c: Counters, p: Policy, clock: Clock): nat {
    if DayRolledOver(c, p, clock) then 0 else c.callsToday
  }

  /** Each policy on its own: does it refuse a call made now? */
  predicate Violates(r: Reason, c: Counters, p: Policy, clock: Clock) {
    match r
    case OverMaxCalls =>
      Truthy(p.maxCalls) && c.totalCallCount >= p.maxCalls.value
    case TooSoonAfterLastCall =>
      Truthy(p.minimumTimeBetweenCalls) && Truthy(c.lastCallTimestamp)
      && clock.now - c.lastCallTimestamp.value < p.minimumTimeBetweenCalls.value
    case OverMaxCallsToday =>
      Truthy(p.maxCallsPerDay) && CallsTodayAtCheck(c, p, clock) >= p.maxCallsPerDay.value
    case WithinThrottlingHours =>
      p.throttleHours.Some? && InWindow(p.throttleHours.value, clock.hourOf(clock.now))
  }

  /** The position of a policy in the checking order. */
  function Rank(r: Reason): nat {
    match r
    case OverMaxCalls => 0
    case TooSoonAfterLastCall => 1
    case OverMaxCallsToday => 2
    case WithinThrottlingHours => 3
  }

  datatype Step = Step(after: Counters, outcome: Outcome)

  /**
   * One `execute` call, checking the policies as the source does. The result is
   * characterised through the policies taken one at a time: the call is refused
   * exactly when some policy refuses it, the reason is the first refusing policy in
   * checking order, and the counters move as described.
   */
  function ExecuteStep(c: Counters, p: Policy, clock: Clock): (r: Step)
    // refused exactly when some policy refuses, for the first refusing policy
    ensures r.outcome == Ran <==> forall q :: !Violates(q, c, p, clock)
    ensures r.outcome.Throttled? ==>
      Violates(r.outcome.reason, c, p, clock)
      && forall q :: Rank(q) < Rank(r.outcome.reason) ==> !Violates(q, c, p, clock)
    // a refused call only counts itself, and keeps the rollover reset once the daily check was reached
    ensures r.outcome.Throttled? ==>
      r.after.totalThrottledCallCount == c.totalThrottledCallCount + 1
      && r.after.totalCallCount == c.totalCallCount
      && r.after.lastCallTimestamp == c.lastCallTimestamp
      && r.after.callsToday == (if Rank(r.outcome.reason) >= 2 then CallsTodayAtCheck(c, p, clock) else c.callsToday)
    // an accepted call counts once in total and today, and becomes the last call
    ensures r.outcome == Ran ==>
      r.after.totalCallCount == c.totalCallCount + 1
      && r.after.callsToday == CallsTodayAtCheck(c, p, clock) + 1
      && r.after.lastCallTimestamp == Some(clock.now)
      && r.after.totalThrottledCallCount == c.totalThrottledCallCount
    // the caps are never exceeded by an accepted call
    ensures r.outcome == Ran && Truthy(p.maxCalls) && p.maxCalls.value > 0 ==>
      r.after.totalCallCount <= p.maxCalls.value
    ensures r.outcome == Ran && Truthy(p.maxCallsPerDay) && p.maxCallsPerDay.value > 0 ==>
      r.after.callsToday <= p.maxCallsPerDay.value
    // calls made today never outnumber all calls
    ensures c.callsToday <= c.totalCallCount ==> r.after.callsToday <= r.after.totalCallCount
  {
    if Truthy(p.maxCalls) && c.totalCallCount >= p.maxCalls.value then
      assert Violates(OverMaxCalls, c, p, clock);
      Step(c.(totalThrottledCallCount := c.totalThrottledCallCount + 1), Throttled(OverMaxCalls))
    else if Truthy(p.minimumTimeBetweenCalls) && Truthy(c.lastCallTimestamp)
      && clock.now - c.lastCallTimestamp.value < p.minimumTimeBetweenCalls.value then
      assert Violates(TooSoonAfterLastCall, c, p, clock);
      Step(c.(totalThrottledCallCount := c.totalThrottledCallCount + 1), Throttled(TooSoonAfterLastCall))
    else
      var c' := if DayRolledOver(c, p, clock) then c.(callsToday := 0) else c;
      if Truthy(p.maxCallsPerDay) && c'.callsToday >= p.maxCallsPerDay.value then
        assert Violates(OverMaxCallsToday, c, p, clock);
        Step(c'.(totalThrottledCallCount := c'.totalThrottledCallCount + 1), Throttled(OverMaxCallsToday))
      else if p.throttleHours.Some? && InWindow(p.throttleHours.value, clock.hourOf(clock.now)) then
        assert Violates(WithinThrottlingHours, c, p, clock);
        Step(c'.(totalThrottledCallCount := c'.totalThrottledCallCount + 1), Throttled(WithinThrottlingHours))
      else
        Step(Counters(c'.totalCallCount + 1, c'.totalThrottledCallCount, c'.callsToday + 1, Some(clock.now)), Ran)
  }

  /** `forceExecute`: counts and stamps the call with no policy check and no rollover. */
  function Force(c: Counters, now: int): (r: Counters)
    ensures r.totalCallCount == c.totalCallCount + 1 && r.callsToday == c.callsToday + 1
    ensures r.totalThrottledCallCount == c.totalThrottledCallCount && r.lastCallTimestamp == Some(now)
  {
    Counters(c.totalCallCount + 1, c.totalThrottledCallCount, c.callsToday + 1, Some(now))
  }

  /** No policy at all: the state of a new throttler. */
  const Unrestricted := Policy(None, None, None, None)

  /** A forced call is a call to a throttler without policies: it always runs and counts once. */
  lemma ForceIsUnrestrictedCall(c: Counters, clock: Clock)
    ensures ExecuteStep(c, Unrestricted, clock) == Step(Force(c, clock.now), Ran)
  {
  }

  /** A forced call leaves the counters as an accepted call would when the day has not rolled over. */
  lemma ForceIsAcceptedCall(c: Counters, p: Policy, clock: Clock)
    requires ExecuteStep(c, p, clock).outcome == Ran && !DayRolledOver(c, p, clock)
    ensures ExecuteStep(c, p, clock).after == Force(c, clock.now)
  {
  }

  /** The counters after a series of `execute` calls, one per clock reading. */
  function Run(c: Counters, p: Policy, clocks: seq<Clock>): Counters
    decreases |clocks|
  {
    if clocks == [] then c else Run(ExecuteStep(c, p, clocks[0]).after, p, clocks[1..])
  }

  /** With a total cap n > 0, no series of calls raises `totalCallCount` above n. */
  lemma {:induction false} RunRespectsMaxCalls(c: Counters, p: Policy, clocks: seq<Clock>)
    requires Truthy(p.maxCalls) && p.maxCalls.value > 0
    requires c.totalCallCount <= p.maxCalls.value
    ensures Run(c, p, clocks).totalCallCount <= p.maxCalls.value
    decreases |clocks|
  {
    if clocks != [] {
      RunRespectsMaxCalls(ExecuteStep(c, p, clocks[0]).after, p, clocks[1..]);
    }
  }

  /** Every call of a series is either counted or throttled, exactly once. */
  lemma {:induction false} RunCountsEveryCall(c: Counters, p: Policy, clocks: seq<Clock>)
    ensures Run(c, p, clocks).totalCallCount + Run(c, p, clocks).totalThrottledCallCount
      == c.totalCallCount + c.totalThrottledCallCount + |clocks|
    decreases |clocks|
  {
    if clocks != [] {
      RunCountsEveryCall(ExecuteStep(c, p, clocks[0]).after, p, clocks[1..]);
    }
  }

  /** The policy with only a total cap of n. */
  function OnlyMaxCalls(n: int): Policy {
    Policy(Some(n), None, None, None)
  }

  function Min(a: int, b: int): int {
    if a <= b then a else b
  }

  /**
   * With only a total cap n, calls run until n have run and every later one is
   * throttled, whatever the clock says.
   */
  lemma {:induction false} RunWithOnlyMaxCalls(c: Counters, n: int, clocks: seq<Clock>)
    requires n > 0 && c.totalCallCount <= n
    ensures Run(c, OnlyMaxCalls(n), clocks).totalCallCount == Min(c.totalCallCount + |clocks|, n)
    ensures Run(c, OnlyMaxCalls(n), clocks).totalThrottledCallCount
      == c.totalThrottledCallCount + |clocks| - (Min(c.totalCallCount + |clocks|, n) - c.totalCallCount)
    decreases |clocks|
  {
    if clocks != [] {
      RunWithOnlyMaxCalls(ExecuteStep(c, OnlyMaxCalls(n), clocks[0]).after, n, clocks[1..]);
    }
  }

  /** After `reset` with `maxCalls = 5`, twenty calls: five run and fifteen are throttled. */
  lemma TwentyCallsAfterResetRunFive(clocks: seq<Clock>)
    requires |clocks| == 20
    ensures Run(Zero, OnlyMaxCalls(5), clocks).totalCallCount == 5
    ensures Run(Zero, OnlyMaxCalls(5), clocks).totalThrottledCallCount == 15
  {
    RunWithOnlyMaxCalls(Zero, 5, clocks);
  }

  /**
   * The throttler object. Its public fields are the three number policies; the other
   * fields are the private state of the source class.
   */
  class Throttler {
    var maxCalls: Option<int>
    var maxCallsPerDay: Option<int>
    var minimumTimeBetweenCalls: Option<int>

    var totalCallCount: nat
    var totalThrottledCallCount: nat
    var callsToday: nat
    var lastCallTimestamp: Option<int>
    var throttleHours: Option<HourWindow>

    /** Calls made today never outnumber all calls made. */
    ghost predicate Valid()
      reads this
    {
      callsToday <= totalCallCount
    }

    function Policies(): Policy
      reads this
    {
      Policy(maxCalls, maxCallsPerDay, minimumTimeBetweenCalls, throttleHours)
    }

    function State(): Counters
      reads this
    {
      Counters(totalCallCount, totalThrottledCallCount, callsToday, lastCallTimestamp)
    }

    constructor ()
      ensures Valid()
      ensures State() == Zero
      ensures Policies() == Unrestricted
    {
      maxCalls := None;
      maxCallsPerDay := None;
      minimumTimeBetweenCalls := None;
      totalCallCount := 0;
      totalThrottledCallCount := 0;
      callsToday := 0;
      lastCallTimestamp := None;
      throttleHours := None;
    }

    method SetThrottleHours(start: int, end: int)
      modifies this
      ensures throttleHours == Some(HourWindow(start, end))
      ensures State() == old(State())
      ensures maxCalls == old(maxCalls) && maxCallsPerDay == old(maxCallsPerDay)
      ensures minimumTimeBetweenCalls == old(minimumTimeBetweenCalls)
    {
      throttleHours := Some(HourWindow(start, end));
    }

    /** Zeroes the counters and clears the last call and the hour window; the number policies stay. */
    method Reset()
      modifies this
      ensures Valid()
      ensures State() == Zero && throttleHours == None
      ensures maxCalls == old(maxCalls) && maxCallsPerDay == old(maxCallsPerDay)
      ensures minimumTimeBetweenCalls == old(minimumTimeBetweenCalls)
    {
      totalCallCount := 0;
      totalThrottledCallCount := 0;
      callsToday := 0;
      lastCallTimestamp := None;
      throttleHours := None;
    }

    /** Runs the call whatever the policies say, and counts it. */
    method ForceExecute(now: int) returns (ran: bool)
      requires Valid()
      modifies this
      ensures Valid()
      ensures ran
      ensures State() == Force(old(State()), now)
      ensures Policies() == old(Policies())
    {
      totalCallCount := totalCallCount + 1;
      callsToday := callsToday + 1;
      lastCallTimestamp := Some(now);
      ran := true;
    }

    /** Checks the four policies in order; the outcome says whether `func` ran. */
    method Execute(clock: Clock) returns (outcome: Outcome)
      requires Valid()
      modifies this
      ensures Valid()
      ensures Step(State(), outcome) == ExecuteStep(old(State()), old(Policies()), clock)
      ensures Policies() == old(Policies())
    {
      if Truthy(maxCalls) && totalCallCount >= maxCalls.value {
        totalThrottledCallCount := totalThrottledCallCount + 1;
        return Throttled(OverMaxCalls);
      }

      if Truthy(minimumTimeBetweenCalls) && Truthy(lastCallTimestamp)
        && clock.now - lastCallTimestamp.value < minimumTimeBetweenCalls.value {
        totalThrottledCallCount := totalThrottledCallCount + 1;
        return Throttled(TooSoonAfterLastCall);
      }

      if Truthy(maxCallsPerDay) {
        if Truthy(lastCallTimestamp) {
          if clock.dayOfMonth(clock.now) != clock.dayOfMonth(lastCallTimestamp.value) {
            callsToday := 0;
          }
        }
        if callsToday >= maxCallsPerDay.value {
          totalThrottledCallCount := totalThrottledCallCount + 1;
          return Throttled(OverMaxCallsToday);
        }
      }

      if throttleHours.Some? {
        var currentHour := clock.hourOf(clock.now);
        if currentHour >= throttleHours.value.start && currentHour <= throttleHours.value.end {
          totalThrottledCallCount := totalThrottledCallCount + 1;
          return Throttled(WithinThrottlingHours);
        }
      }

      totalCallCount := totalCallCount + 1;
      callsToday := callsToday + 1;
      lastCallTimestamp := Some(clock.now);
      outcome := Ran;
    }
  }
}
