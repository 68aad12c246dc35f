/**
 * The server-side helper of the mirror module: it owns a throttler, reacts to the
 * CONFIG and USER_PRESENCE socket notifications by installing timers and issuing
 * requests, and turns the replies of the monitoring API into socket notifications.
 * Timers are abstract handles, requests are recorded instead of sent, and the
 * notifications sent to the display are appended to `sent`.
 */
module NodeHelper {
  import opened Wrappers
  import opened SiteData
  import opened Throttling
  import opened SolaredgeApi

  /** The CONFIG payload, as far as the helper reads it. */
  datatype Config = Config(siteId: string, apiKey: string, interval: int)

  /** What a timer does when it fires. */
  datatype Job = PowerFlowTick | ProductionTick

  /** An installed `setInterval`: its job and its period in milliseconds. */
  datatype Interval = Interval(job: Job, period: int)

  /** A request handed to the HTTP client; the URL is built from these fields. */
  datatype Request =
    | PowerFlowRequest(siteId: string, apiKey: string)
    | ProductionRequest(siteId: string, apiKey: string, startDate: string, endDate: string)

  /** The instant of an event, with the two date prefixes `toJSON().substr(0, 10)` gives. */
  datatype Now = Now(clock: Clock, today: string, yesterday: string)

  /** The socket notifications the helper handles; every other one is ignored. */
  datatype Incoming = ConfigReceived(config: Config) | UserPresence(present: bool) | OtherNotification(name: string)

  /** What the request callback receives: a transport error, or a status, a body and the parse of the body. */
  datatype Response<T> = Failed(error: string) | Reply(statusCode: int, body: string, parsed: Option<T>)

  /** What the callback does with a response. */
  datatype Verdict<T> = SendError(detail: ErrorDetail) | Deliver(value: T) | Ignore

  /** The spacing between production fetches, half an hour. */
  const ProductionPeriod: int := 1800000

  /** The policies `start` gives the throttler: one minute apart, 300 a day, hours 22 to 8. */
  const HelperPolicy: Policy := Policy(None, Some(300), Some(60000), Some(HourWindow(22, 8)))

  /**
   * The callback's branches: a transport error and a 4xx status send PVERROR (with the
   * error, with the body); a 200 whose body parses is delivered; every other status,
   * and a 200 whose body does not parse (the exception escapes the callback), sends nothing.
   */
  function Classify<T>(resp: Response<T>): (v: Verdict<T>)
    ensures v.SendError? <==> resp.Failed? || 400 <= resp.statusCode < 500
    ensures resp.Failed? ==> v == SendError(TransportError(resp.error))
    ensures resp.Reply? && 400 <= resp.statusCode < 500 ==> v == SendError(ErrorBody(resp.body))
    ensures v.Deliver? <==> resp.Reply? && resp.statusCode == 200 && resp.parsed.Some?
    ensures v.Deliver? ==> v.value == resp.parsed.value
  {
    if resp.Failed? then SendError(TransportError(resp.error))
    else if 400 <= resp.statusCode < 500 then SendError(ErrorBody(resp.body))
    else if resp.statusCode == 200 && resp.parsed.Some? then Deliver(resp.parsed.value)
    else Ignore
  }

  /** The notification the power-flow callback sends, if any. */
  function PowerFlowNotification(resp: Response<PowerFlow>, requestCount: nat): (n: Option<SocketNotification>)
    ensures n.None? <==> Classify(resp).Ignore?
    ensures n.Some? && n.value.PowerFlowNote? ==>
      resp.Reply? && resp.statusCode == 200 && resp.parsed == Some(n.value.powerflow)
      && n.value.requestCount == requestCount && n.value.productionSpan.None?
    ensures n.Some? ==> n.value.PowerFlowNote? || n.value.PvErrorNote?
    ensures Classify(resp).Deliver? ==> n == Some(PowerFlowNote(resp.parsed.value, requestCount, None))
    ensures Classify(resp).SendError? ==> n == Some(PvErrorNote(Classify(resp).detail))
  {
    match Classify(resp)
    case SendError(detail) => Some(PvErrorNote(detail))
    case Deliver(flow) => Some(PowerFlowNote(flow, requestCount, None))
    case Ignore => None
  }

  /** The notification the production callback sends, if any. */
  function ProductionNotification(resp: Response<Energy>, startDate: string, endDate: string)
    : (n: Option<SocketNotification>)
    ensures n.None? <==> Classify(resp).Ignore?
    ensures n.Some? && n.value.ProductionNote? ==>
      resp.Reply? && resp.statusCode == 200 && resp.parsed.Some?
      && n.value.production.unit == resp.parsed.value.unit
      && n.value.production.productionYesterday == ProductionForDay(startDate, resp.parsed.value.values)
      && n.value.production.productionToday == ProductionForDay(endDate, resp.parsed.value.values)
    ensures n.Some? ==> n.value.ProductionNote? || n.value.PvErrorNote?
    ensures Classify(resp).Deliver? ==> n.Some? && n.value.ProductionNote?
    ensures Classify(resp).SendError? ==> n == Some(PvErrorNote(Classify(resp).detail))
  {
    match Classify(resp)
    case SendError(detail) => Some(PvErrorNote(detail))
    case Deliver(energy) =>
      Some(ProductionNote(Production(energy.unit,
        ProductionForDay(endDate, energy.values), ProductionForDay(startDate, energy.values))))
    case Ignore => None
  }

  /** An optional notification as the list of what is sent. */
  function Sent(n: Option<SocketNotification>): seq<SocketNotification> {
    if n.Some? then [n.value] else []
  }

  /** Under the helper's policies the hour window (22, 8) never throttles a call. */
  lemma {:induction false} HelperHoursNeverThrottle(c: Counters, clock: Clock)
    ensures ExecuteStep(c, HelperPolicy, clock).outcome != Throttled(WithinThrottlingHours)
  {
    assert !Violates(WithinThrottlingHours, c, HelperPolicy, clock);
  }

  /**
   * Under the helper's policies a call is refused exactly when it comes less than a
   * minute after the last one, or when 300 calls were already made on the same day.
   */
  lemma {:induction false} HelperRefusals(c: Counters, clock: Clock)
    requires c.lastCallTimestamp.Some? && c.lastCallTimestamp.value != 0
    ensures var step := ExecuteStep(c, HelperPolicy, clock);
      step.outcome.Throttled? <==>
        (clock.now - c.lastCallTimestamp.value < 60000 || CallsTodayAtCheck(c, HelperPolicy, clock) >= 300)
  {
    HelperHoursNeverThrottle(c, clock);
    var step := ExecuteStep(c, HelperPolicy, clock);
    if step.outcome.Throttled? {
      assert Violates(step.outcome.reason, c, HelperPolicy, clock);
    } else {
      assert !Violates(TooSoonAfterLastCall, c, HelperPolicy, clock);
      assert !Violates(OverMaxCallsToday, c, HelperPolicy, clock);
    }
  }

  class NodeHelper {
    var config: Option<Config>
    /** The handle of the power-flow interval. */
    var timer: Option<nat>
    /** The handle of the latest production interval. */
    var timerEnergy: Option<nat>
    const throttler: Throttler

    /** The live intervals by handle; clearing one removes it. */
    var intervals: map<nat, Interval>
    var nextHandle: nat
    /** The requests issued, in order. */
    var requests: seq<Request>
    /** The socket notifications sent, in order. */
    var sent: seq<SocketNotification>

    /** The handles of the live intervals that fetch production. */
    function ProductionTimers(): set<nat>
      reads this
    {
      set h | h in intervals && intervals[h].job == ProductionTick
    }

    /**
     * Handles are fresh, `timer` is the one live power-flow interval, `timerEnergy` is
     * a live production interval, and the throttler keeps the policies `start` set.
     */
    ghost predicate Valid()
      reads this, throttler
    {
      throttler.Valid() && throttler.Policies() == HelperPolicy
      && (forall h :: h in intervals ==> h < nextHandle)
      && (timer.Some? ==> timer.value in intervals && intervals[timer.value].job == PowerFlowTick)
      && (forall h :: h in intervals && intervals[h].job == PowerFlowTick ==> timer == Some(h))
      && (timerEnergy.Some? ==> timerEnergy.value in ProductionTimers())
    }

    /** `start`: a fresh throttler with a minute's spacing, 300 calls a day and hours (22, 8). */
    constructor ()
      ensures Valid()
      ensures config.None? && timer.None? && timerEnergy.None?
      ensures intervals == map[] && requests == [] && sent == []
      ensures fresh(throttler) && throttler.State() == Zero
    {
      config := None;
      timer := None;
      timerEnergy := None;
      intervals := map[];
      nextHandle := 0;
      requests := [];
      sent := [];
      var t := new Throttler();
      t.minimumTimeBetweenCalls := Some(60000);
      t.maxCallsPerDay := Some(300);
      t.SetThrottleHours(22, 8);
      throttler := t;
    }

    /** `fetchPowerFlow`: without a configuration the TypeError is caught and sent as PVERROR. */
    method FetchPowerFlow()
      modifies this
      ensures config.Some? ==>
        requests == old(requests) + [PowerFlowRequest(config.value.siteId, config.value.apiKey)]
        && sent == old(sent)
      ensures config.None? ==> requests == old(requests) && sent == old(sent) + [PvErrorNote(ConfigurationMissing)]
      ensures config == old(config) && timer == old(timer) && timerEnergy == old(timerEnergy)
      ensures intervals == old(intervals) && nextHandle == old(nextHandle)
    {
      if config.None? {
        sent := sent + [PvErrorNote(ConfigurationMissing)];
        return;
      }
      requests := requests + [PowerFlowRequest(config.value.siteId, config.value.apiKey)];
    }

    /** `fetchProduction`: asks for the energy from yesterday's date to today's. */
    method FetchProduction(now: Now)
      modifies this
      ensures config.Some? ==>
        requests == old(requests)
          + [ProductionRequest(config.value.siteId, config.value.apiKey, now.yesterday, now.today)]
        && sent == old(sent)
      ensures config.None? ==> requests == old(requests) && sent == old(sent) + [PvErrorNote(ConfigurationMissing)]
      ensures config == old(config) && timer == old(timer) && timerEnergy == old(timerEnergy)
      ensures intervals == old(intervals) && nextHandle == old(nextHandle)
    {
      if config.None? {
        sent := sent + [PvErrorNote(ConfigurationMissing)];
        return;
      }
      requests := requests + [ProductionRequest(config.value.siteId, config.value.apiKey, now.yesterday, now.today)];
    }

    /** The power-flow fetch behind the throttler; the outcome says whether it went out. */
    method ThrottledPowerFlow(clock: Clock) returns (outcome: Outcome)
      requires Valid()
      modifies this, throttler
      ensures Valid()
      ensures Step(throttler.State(), outcome) == ExecuteStep(old(throttler.State()), HelperPolicy, clock)
      ensures outcome.Throttled? ==> requests == old(requests) && sent == old(sent)
      ensures outcome == Ran && config.Some? ==>
        requests == old(requests) + [PowerFlowRequest(config.value.siteId, config.value.apiKey)]
        && sent == old(sent)
      ensures outcome == Ran && config.None? ==>
        requests == old(requests) && sent == old(sent) + [PvErrorNote(ConfigurationMissing)]
      ensures config == old(config) && timer == old(timer) && timerEnergy == old(timerEnergy)
      ensures intervals == old(intervals) && nextHandle == old(nextHandle)
    {
      outcome := throttler.Execute(clock);
      if outcome == Ran {
        FetchPowerFlow();
      }
    }

    /**
     * `socketNotificationReceived`. CONFIG stores the configuration, clears the old
     * power-flow interval, installs a new one and a new production interval (the old
     * production interval is not cleared), and fetches both once, past the throttler.
     * USER_PRESENCE with a true payload routes one power-flow fetch through the
     * throttler. Anything else changes nothing.
     */
    method SocketNotificationReceived(note: Incoming, now: Now)
      requires Valid()
      modifies this, throttler
      ensures Valid()
      ensures note.ConfigReceived? ==>
        config == Some(note.config)
        && timer == Some(old(nextHandle)) && timerEnergy == Some(old(nextHandle) + 1)
        && intervals == (if old(timer).Some? then old(intervals) - {old(timer).value} else old(intervals))
                        [old(nextHandle) := Interval(PowerFlowTick, note.config.interval)]
                        [old(nextHandle) + 1 := Interval(ProductionTick, ProductionPeriod)]
        && ProductionTimers() == old(ProductionTimers()) + {old(nextHandle) + 1}
        && requests == old(requests) + [PowerFlowRequest(note.config.siteId, note.config.apiKey),
             ProductionRequest(note.config.siteId, note.config.apiKey, now.yesterday, now.today)]
        && sent == old(sent)
        && throttler.State() == old(throttler.State())
      ensures note.UserPresence? && note.present ==>
        var step := ExecuteStep(old(throttler.State()), HelperPolicy, now.clock);
        throttler.State() == step.after
        && config == old(config) && intervals == old(intervals)
        && timer == old(timer) && timerEnergy == old(timerEnergy) && nextHandle == old(nextHandle)
        && (step.outcome.Throttled? ==> requests == old(requests) && sent == old(sent))
        && (step.outcome == Ran && config.Some? ==>
              requests == old(requests) + [PowerFlowRequest(config.value.siteId, config.value.apiKey)]
              && sent == old(sent))
        && (step.outcome == Ran && config.None? ==>
              requests == old(requests) && sent == old(sent) + [PvErrorNote(ConfigurationMissing)])
      ensures (note.UserPresence? && !note.present) || note.OtherNotification? ==>
        unchanged(this) && unchanged(throttler)
    {
      match note
      case ConfigReceived(c) =>
        Configure(c, now);
      case UserPresence(present) =>
        if present {
          var _ := ThrottledPowerFlow(now.clock);
        }
      case OtherNotification(_) =>
    }

    /**
     * CONFIG: store the configuration, replace the power-flow interval, add a
     * production interval, and fetch both once.
     */
    method Configure(c: Config, now: Now)
      requires Valid()
      modifies this
      ensures Valid()
      ensures config == Some(c)
        && timer == Some(old(nextHandle)) && timerEnergy == Some(old(nextHandle) + 1)
        && intervals == (if old(timer).Some? then old(intervals) - {old(timer).value} else old(intervals))
                        [old(nextHandle) := Interval(PowerFlowTick, c.interval)]
                        [old(nextHandle) + 1 := Interval(ProductionTick, ProductionPeriod)]
        && ProductionTimers() == old(ProductionTimers()) + {old(nextHandle) + 1}
        && requests == old(requests) + [PowerFlowRequest(c.siteId, c.apiKey),
             ProductionRequest(c.siteId, c.apiKey, now.yesterday, now.today)]
        && sent == old(sent)
    {
      config := Some(c);
      if timer.Some? {
        intervals := intervals - {timer.value};
      }
      var powerFlowHandle := nextHandle;
      intervals := intervals[powerFlowHandle := Interval(PowerFlowTick, c.interval)];
      timer := Some(powerFlowHandle);
      var productionHandle := nextHandle + 1;
      intervals := intervals[productionHandle := Interval(ProductionTick, ProductionPeriod)];
      timerEnergy := Some(productionHandle);
      nextHandle := nextHandle + 2;
      FetchPowerFlow();
      FetchProduction(now);
    }

    /** A timer firing: the power-flow interval goes through the throttler, the production one does not. */
    method Tick(handle: nat, now: Now)
      requires Valid()
      modifies this, throttler
      ensures Valid()
      ensures handle !in old(intervals) ==> unchanged(this) && unchanged(throttler)
      ensures handle in old(intervals) && old(intervals)[handle].job == PowerFlowTick ==>
        var step := ExecuteStep(old(throttler.State()), HelperPolicy, now.clock);
        throttler.State() == step.after
        && (step.outcome.Throttled? ==> requests == old(requests) && sent == old(sent))
        && (step.outcome == Ran && config.Some? ==>
              requests == old(requests) + [PowerFlowRequest(config.value.siteId, config.value.apiKey)]
              && sent == old(sent))
        && (step.outcome == Ran && config.None? ==>
              requests == old(requests) && sent == old(sent) + [PvErrorNote(ConfigurationMissing)])
      ensures handle in old(intervals) && old(intervals)[handle].job == ProductionTick ==>
        throttler.State() == old(throttler.State())
        && (config.Some? ==>
              requests == old(requests)
                + [ProductionRequest(config.value.siteId, config.value.apiKey, now.yesterday, now.today)]
              && sent == old(sent))
        && (config.None? ==>
              requests == old(requests) && sent == old(sent) + [PvErrorNote(ConfigurationMissing)])
      ensures config == old(config) && intervals == old(intervals)
      ensures timer == old(timer) && timerEnergy == old(timerEnergy) && nextHandle == old(nextHandle)
    {
      if handle !in intervals {
        return;
      }
      match intervals[handle].job
      case PowerFlowTick =>
        var _ := ThrottledPowerFlow(now.clock);
      case ProductionTick =>
        FetchProduction(now);
    }

    /** The power-flow callback; `requestCount` is the throttler's calls today when the reply arrives. */
    method ReceivePowerFlow(resp: Response<PowerFlow>)
      modifies this
      ensures sent == old(sent) + Sent(PowerFlowNotification(resp, throttler.callsToday))
      ensures config == old(config) && intervals == old(intervals) && requests == old(requests)
      ensures timer == old(timer) && timerEnergy == old(timerEnergy) && nextHandle == old(nextHandle)
    {
      var n := PowerFlowNotification(resp, throttler.callsToday);
      if n.Some? {
        sent := sent + [n.value];
      }
    }

    /** The production callback of a request for `startDate` to `endDate`. */
    method ReceiveProduction(startDate: string, endDate: string, resp: Response<Energy>)
      modifies this
      ensures sent == old(sent) + Sent(ProductionNotification(resp, startDate, endDate))
      ensures config == old(config) && intervals == old(intervals) && requests == old(requests)
      ensures timer == old(timer) && timerEnergy == old(timerEnergy) && nextHandle == old(nextHandle)
    {
      match Classify(resp)
      case SendError(detail) =>
        sent := sent + [PvErrorNote(detail)];
      case Deliver(energy) =>
        var prodYesterday := FindProductionForDay(startDate, energy.values);
        var prodToday := FindProductionForDay(endDate, energy.values);
        sent := sent + [ProductionNote(Production(energy.unit, prodToday, prodYesterday))];
      case Ignore =>
    }
  }
}
