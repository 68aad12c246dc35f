/**
 * The logic of the SolarEdge API wrapper that does not talk to the network: looking
 * up a day's production, summing a meter's values, formatting and rounding API
 * date-times, turning telemetry into chart series and storage records, and keeping
 * the maximum-power mark in step with its file.
 */
module SolaredgeApi {
  import opened Wrappers
  import opened JsSemantics
  import opened Persistence
  import opened SiteData

  /** An energy entry belongs to `day` when its date-time text contains the day's date. */
  predicate IsForDay(v: DayValue, day: string) {
    Contains(v.date, day)
  }

  /** The index of the last entry whose date contains `day`. */
  function LastIndexForDay(day: string, values: seq<DayValue>): (r: Option<nat>)
    ensures r.None? <==> forall i :: 0 <= i < |values| ==> !IsForDay(values[i], day)
    ensures r.Some? ==> (r.value < |values| && IsForDay(values[r.value], day)
      && forall j :: r.value < j < |values| ==> !IsForDay(values[j], day))
    decreases |values|
  {
    if values == [] then None
    else if IsForDay(values[|values| - 1], day) then Some(|values| - 1)
    else
      var r := LastIndexForDay(day, values[..|values| - 1]);
      assert forall i :: 0 <= i < |values| - 1 ==> values[..|values| - 1][i] == values[i];
      r
  }

  /** The production of the day: the value of the last matching entry, or 0. */
  function ProductionForDay(day: string, values: seq<DayValue>): real {
    match LastIndexForDay(day, values)
    case None => 0.0
    case Some(i) => values[i].value
  }

  /**
   * A day's production is 0 when no entry is for the day, and otherwise the value of
   * the entry for the day that no later entry for the day follows.
   */
  lemma ProductionIsLastMatch(day: string, values: seq<DayValue>)
    ensures (forall i :: 0 <= i < |values| ==> !IsForDay(values[i], day)) ==> ProductionForDay(day, values) == 0.0
    ensures forall i :: (0 <= i < |values| && IsForDay(values[i], day)
      && (forall j :: i < j < |values| ==> !IsForDay(values[j], day))) ==> ProductionForDay(day, values) == values[i].value
  {
  }

  /**
   * `#findProductionForDay` (and its copy in the node helper): every entry whose
   * date contains `day` overwrites the result, so the last one wins.
   */
  method FindProductionForDay(day: string, values: seq<DayValue>) returns (prod: real)
    ensures prod == ProductionForDay(day, values)
  {
    prod := 0.0;
    for i := 0 to |values|
      invariant prod == ProductionForDay(day, values[..i])
    {
      assert values[..i + 1][..i] == values[..i];
      if IndexOf(values[i].date, day) >= 0 {
        prod := values[i].value;
      }
    }
    assert values[..|values|] == values;
  }

  /** A meter of `energyDetails`: its type and its values. */
  datatype Meter = Meter(meterType: string, values: seq<DayValue>)

  /** The sum of the values, added left to right. */
  function Total(vs: seq<DayValue>): real {
    if vs == [] then 0.0 else Total(vs[..|vs| - 1]) + vs[|vs| - 1].value
  }

  /** The index of the first meter whose type equals `name` ignoring case. */
  function FirstMeterIndex(name: string, meters: seq<Meter>): (r: Option<nat>)
    ensures r.None? <==> forall m :: 0 <= m < |meters| ==> !EqualsIgnoringCase(meters[m].meterType, name)
    ensures r.Some? ==> (r.value < |meters| && EqualsIgnoringCase(meters[r.value].meterType, name)
      && forall m :: 0 <= m < r.value ==> !EqualsIgnoringCase(meters[m].meterType, name))
    decreases |meters|
  {
    if meters == [] then None
    else if EqualsIgnoringCase(meters[0].meterType, name) then Some(0)
    else
      var r := FirstMeterIndex(name, meters[1..]);
      assert forall m :: 1 <= m < |meters| ==> meters[1..][m - 1] == meters[m];
      if r.None? then None else Some(r.value + 1)
  }

  /**
   * `#sumValuesFor`: the sum of the values of the first meter of the given type
   * (ignoring case); later meters of that type are not looked at, and no match gives 0.
   */
  method SumValuesFor(meter: string, meters: seq<Meter>) returns (res: real)
    ensures res == match FirstMeterIndex(meter, meters)
                   case None => 0.0
                   case Some(m) => Total(meters[m].values)
  {
    res := 0.0;
    var m := 0;
    while m < |meters|
      invariant 0 <= m <= |meters|
      invariant forall k :: 0 <= k < m ==> !EqualsIgnoringCase(meters[k].meterType, meter)
      invariant res == 0.0
    {
      if ToLower(meters[m].meterType) == ToLower(meter) {
        var values := meters[m].values;
        var i := 0;
        while i < |values|
          invariant 0 <= i <= |values|
          invariant res == Total(values[..i])
        {
          assert values[..i + 1][..i] == values[..i];
          res := res + values[i].value;
          i := i + 1;
        }
        assert values[..|values|] == values;
        assert FirstMeterIndex(meter, meters) == Some(m);
        return;
      }
      m := m + 1;
    }
  }

  /** The local date-time fields of a JavaScript `Date`; `month` is `getMonth()`, from 0. */
  datatype LocalDateTime = LocalDateTime(year: int, month: int, day: int, hours: int, minutes: int)

  /** The ranges every `Date` getter keeps to. */
  predicate ValidFields(d: LocalDateTime) {
    0 <= d.month < 12 && 1 <= d.day <= 31 && 0 <= d.hours < 24 && 0 <= d.minutes < 60
  }

  /** `#formatDateTimeForAPI`: "YYYY-MM-DD HH:MM:00". */
  function FormatDateTimeForApi(d: LocalDateTime): (s: string)
    requires ValidFields(d)
    ensures |s| == |IntToString(d.year)| + 15 && s[|s| - 3..] == ":00"
  {
    PadTwoDigits(d.month + 1);
    PadTwoDigits(d.day);
    PadTwoDigits(d.hours);
    PadTwoDigits(d.minutes);
    IntToString(d.year) + "-" + PadTwo(d.month + 1) + "-" + PadTwo(d.day) + " "
    + PadTwo(d.hours) + ":" + PadTwo(d.minutes) + ":00"
  }

  /** The digits of the string at `[from, from + n)`. */
  predicate DigitsAt(s: string, from: nat, n: nat) {
    from + n <= |s| && forall i :: from <= i < from + n ==> IsDigit(s[i])
  }

  /** "YYYY-MM-DD HH:MM" at the start of `s`, the shape the API uses. */
  predicate IsApiDateTime(s: string) {
    |s| >= 16 && DigitsAt(s, 0, 4) && s[4] == '-' && DigitsAt(s, 5, 2) && s[7] == '-'
    && DigitsAt(s, 8, 2) && s[10] == ' ' && DigitsAt(s, 11, 2) && s[13] == ':' && DigitsAt(s, 14, 2)
  }

  /** The number written at `[from, from + n)`. */
  function FieldAt(s: string, from: nat, n: nat): nat
    requires DigitsAt(s, from, n)
  {
    DecimalValue(s[from..from + n])
  }

  lemma FourDigitYear(n: int)
    requires 1000 <= n <= 9999
    ensures |IntToString(n)| == 4
  {
    assert IntToString(n) == NatToString(n / 10) + [DigitChar(n % 10)];
    assert NatToString(n / 10) == NatToString(n / 100) + [DigitChar(n / 10 % 10)];
    assert NatToString(n / 100) == NatToString(n / 1000) + [DigitChar(n / 100 % 10)];
  }

  /** A padded field reads back from where it sits in a longer string. */
  lemma PaddedFieldAt(s: string, from: nat, n: int)
    requires 0 <= n < 100 && from + 2 <= |s| && s[from..from + 2] == PadTwo(n)
    ensures DigitsAt(s, from, 2) && FieldAt(s, from, 2) == n
  {
    PadTwoDigits(n);
    assert s[from] == PadTwo(n)[0] && s[from + 1] == PadTwo(n)[1];
  }

  /**
   * For a four-digit year, the formatted string has the API shape, reads back as the
   * date's fields (the month counted from 1) and ends in ":00".
   */
  lemma FormatDateTimeReadsBack(d: LocalDateTime)
    requires ValidFields(d) && 1000 <= d.year <= 9999
    ensures var s := FormatDateTimeForApi(d);
      |s| == 19 && IsApiDateTime(s) && s[16..] == ":00"
      && FieldAt(s, 0, 4) == d.year && FieldAt(s, 5, 2) == d.month + 1 && FieldAt(s, 8, 2) == d.day
      && FieldAt(s, 11, 2) == d.hours && FieldAt(s, 14, 2) == d.minutes
  {
    var y := IntToString(d.year);
    FourDigitYear(d.year);
    PadTwoDigits(d.month + 1);
    PadTwoDigits(d.day);
    PadTwoDigits(d.hours);
    PadTwoDigits(d.minutes);
    var s := FormatDateTimeForApi(d);
    assert s == y + "-" + PadTwo(d.month + 1) + "-" + PadTwo(d.day) + " "
      + PadTwo(d.hours) + ":" + PadTwo(d.minutes) + ":00";
    assert s[0..4] == y;
    assert s[5..7] == PadTwo(d.month + 1);
    assert s[8..10] == PadTwo(d.day);
    assert s[11..13] == PadTwo(d.hours);
    assert s[14..16] == PadTwo(d.minutes);
    PaddedFieldAt(s, 5, d.month + 1);
    PaddedFieldAt(s, 8, d.day);
    PaddedFieldAt(s, 11, d.hours);
    PaddedFieldAt(s, 14, d.minutes);
    assert DigitsAt(s, 0, 4);
  }

  /**
   * `#roundApiTime`: the "HH:MM" at offset 11, the hour as `parseInt` reads it and
   * rendered unpadded, the minute floored to a multiple of `interval` and padded.
   */
  function RoundApiTime(apiDateTime: string, interval: int): string
    requires interval > 0
  {
    var time := Substr(apiDateTime, 11, 5);
    RenderRounded(ParseInt(Substr(time, 0, 2)), ParseInt(SubstrFrom(time, 3)), interval)
  }

  /** The minute rounded down to a multiple of `interval`: the largest such multiple not above `min`. */
  function FloorTo(min: int, interval: int): (r: int)
    requires interval > 0
    ensures r <= min < r + interval
    ensures exists q :: r == q * interval
  {
    var q := min / interval;
    assert min == q * interval + min % interval;
    q * interval
  }

  /** The floored minute, rendered after the hour with a 0 below 10. */
  function RenderRounded(hour: Option<int>, min: Option<int>, interval: int): string
    requires interval > 0
  {
    var rounded := if min.Some? then Some(FloorTo(min.value, interval)) else None;
    if rounded.Some? && rounded.value < 10 then NumberToString(hour) + ":0" + IntToString(rounded.value)
    else NumberToString(hour) + ":" + NumberToString(rounded)
  }

  /** A parsed hour and minute render as the hour, ':', and the floored minute padded to two digits. */
  lemma RenderRoundedParsed(h: int, m: int, interval: int)
    requires interval > 0
    ensures RenderRounded(Some(h), Some(m), interval) == IntToString(h) + ":" + PadTwo(FloorTo(m, interval))
  {
    var r := FloorTo(m, interval);
    var hour := IntToString(h);
    assert NumberToString(Some(h)) == hour;
    if r < 10 {
      assert RenderRounded(Some(h), Some(m), interval) == hour + ":0" + IntToString(r);
      assert hour + ":0" + IntToString(r) == hour + ":" + ("0" + IntToString(r));
    } else {
      assert RenderRounded(Some(h), Some(m), interval) == hour + ":" + NumberToString(Some(r));
    }
  }

  /**
   * On an API date-time the rounded time is the hour, unpadded, and the largest
   * multiple of `interval` not above the minute, padded to two digits.
   */
  lemma RoundApiTimeOfApiDateTime(s: string, interval: int)
    requires IsApiDateTime(s) && interval > 0
    ensures RoundApiTime(s, interval) == IntToString(FieldAt(s, 11, 2)) + ":" + PadTwo(FloorTo(FieldAt(s, 14, 2), interval))
  {
    var time := Substr(s, 11, 5);
    assert time == s[11..16];
    assert Substr(time, 0, 2) == s[11..13];
    assert SubstrFrom(time, 3) == s[14..16];
    FieldParses(s, 11);
    FieldParses(s, 14);
    RenderRoundedParsed(FieldAt(s, 11, 2), FieldAt(s, 14, 2), interval);
  }

  /** A two-digit field parses to its value. */
  lemma FieldParses(s: string, from: nat)
    requires DigitsAt(s, from, 2)
    ensures ParseInt(s[from..from + 2]) == Some(FieldAt(s, from, 2))
  {
    var t := s[from..from + 2];
    assert IsDigit(t[0]) && IsDigit(t[1]);
    ParseTwoDigits(t);
  }

  /** Formatting a date and rounding it back gives its hour and its floored minute. */
  lemma RoundFormattedDateTime(d: LocalDateTime, interval: int)
    requires ValidFields(d) && 1000 <= d.year <= 9999 && interval > 0
    ensures RoundApiTime(FormatDateTimeForApi(d), interval)
      == IntToString(d.hours) + ":" + PadTwo(FloorTo(d.minutes, interval))
  {
    FormatDateTimeReadsBack(d);
    RoundApiTimeOfApiDateTime(FormatDateTimeForApi(d), interval);
  }

  /** One inverter telemetry entry. */
  datatype InverterTelemetry = InverterTelemetry(date: string, temperature: real)

  /** One battery telemetry entry. */
  datatype BatteryTelemetry = BatteryTelemetry(
    timeStamp: string, batteryPercentageState: real, internalTemp: real, power: real, acGridCharging: real)

  /** A battery of `storageData.batteries`. */
  datatype Battery = Battery(telemetries: seq<BatteryTelemetry>)

  /** The chart series: battery charge and inverter temperature over 5-minute times. */
  datatype DiagramData = DiagramData(
    storageTimes: seq<string>, storageValues: seq<real>, tempTimes: seq<string>, tempValues: seq<real>)

  /** The exception of reading `batteries[0].telemetries` when there is no battery. */
  datatype ApiError = NoBattery | RequestFailed(message: string) | WriteFailed

  /**
   * `#buildDiagramData`: one temperature point per inverter telemetry and one charge
   * point per telemetry of the first battery, in order, at the time rounded to 5 minutes.
   */
  method BuildDiagramData(inverter: seq<InverterTelemetry>, batteries: seq<Battery>)
    returns (r: Result<DiagramData, ApiError>)
    ensures r.Failure? <==> batteries == []
    ensures r.Failure? ==> r.error == NoBattery
    ensures r.Success? ==>
      var d := r.value;
      var tele := batteries[0].telemetries;
      |d.tempTimes| == |d.tempValues| == |inverter|
      && |d.storageTimes| == |d.storageValues| == |tele|
      && (forall i :: 0 <= i < |inverter| ==>
            d.tempTimes[i] == RoundApiTime(inverter[i].date, 5) && d.tempValues[i] == inverter[i].temperature)
      && (forall i :: 0 <= i < |tele| ==>
            d.storageTimes[i] == RoundApiTime(tele[i].timeStamp, 5)
            && d.storageValues[i] == tele[i].batteryPercentageState)
  {
    var tempTimes, tempValues := TemperatureSeries(inverter);
    if batteries == [] {
      return Failure(NoBattery);
    }
    var storageTimes, storageValues := ChargeSeries(batteries[0].telemetries);
    r := Success(DiagramData(storageTimes, storageValues, tempTimes, tempValues));
  }

  /** The first loop of `#buildDiagramData`: inverter temperature over rounded times. */
  method TemperatureSeries(inverter: seq<InverterTelemetry>) returns (times: seq<string>, values: seq<real>)
    ensures |times| == |values| == |inverter|
    ensures forall i :: 0 <= i < |inverter| ==>
      times[i] == RoundApiTime(inverter[i].date, 5) && values[i] == inverter[i].temperature
  {
    times, values := [], [];
    for i := 0 to |inverter|
      invariant |times| == |values| == i
      invariant forall k :: 0 <= k < i ==>
        times[k] == RoundApiTime(inverter[k].date, 5) && values[k] == inverter[k].temperature
    {
      var telemetry := inverter[i];
      times := times + [RoundApiTime(telemetry.date, 5)]; // rounded to 5-minute intervals
      values := values + [telemetry.temperature];
    }
  }

  /** The second loop of `#buildDiagramData`: battery charge over rounded times. */
  method ChargeSeries(tele: seq<BatteryTelemetry>) returns (times: seq<string>, values: seq<real>)
    ensures |times| == |values| == |tele|
    ensures forall i :: 0 <= i < |tele| ==>
      times[i] == RoundApiTime(tele[i].timeStamp, 5) && values[i] == tele[i].batteryPercentageState
  {
    times, values := [], [];
    for i := 0 to |tele|
      invariant |times| == |values| == i
      invariant forall k :: 0 <= k < i ==>
        times[k] == RoundApiTime(tele[k].timeStamp, 5) && values[k] == tele[k].batteryPercentageState
    {
      var telemetry := tele[i];
      times := times + [RoundApiTime(telemetry.timeStamp, 5)];
      values := values + [telemetry.batteryPercentageState];
    }
  }

  /** The record `fetchStorageData` makes of one battery telemetry entry. */
  function ToStorageRecord(t: BatteryTelemetry): StorageRecord {
    StorageRecord(t.timeStamp, t.batteryPercentageState, t.internalTemp, t.power, t.acGridCharging)
  }

  /**
   * The mapping inside `fetchStorageData`: one record per telemetry entry of the
   * first battery, in order, the state of charge taken from `batteryPercentageState`.
   */
  method StorageRecords(batteries: seq<Battery>) returns (r: Result<seq<StorageRecord>, ApiError>)
    ensures r.Failure? <==> batteries == []
    ensures r.Failure? ==> r.error == NoBattery
    ensures r.Success? ==>
      |r.value| == |batteries[0].telemetries|
      && forall i :: 0 <= i < |r.value| ==>
        var t := batteries[0].telemetries[i];
        r.value[i] == ToStorageRecord(t) && r.value[i].socPercent == t.batteryPercentageState
  {
    if batteries == [] {
      return Failure(NoBattery);
    }
    var tele := batteries[0].telemetries;
    var storageData: seq<StorageRecord> := [];
    for i := 0 to |tele|
      invariant |storageData| == i
      invariant forall k :: 0 <= k < i ==> storageData[k] == ToStorageRecord(tele[k])
    {
      storageData := storageData + [ToStorageRecord(tele[i])];
    }
    r := Success(storageData);
  }

  /** The value the mark starts from when `maxPower.json` cannot be read. */
  const DefaultMaxPowerValue: real := 0.001

  /**
   * The high-water update of `fetchCurrentPowerFlow`: the mark moves, and is stamped,
   * only when the PV power is strictly above it.
   */
  function RaiseMaxPower(mp: MaxPower, current: real, now: int): (r: MaxPower)
    ensures r.value >= mp.value && r.value >= current
    ensures r.value == mp.value || r.value == current
    ensures current <= mp.value ==> r == mp
    ensures current > mp.value ==> r.timestamp == now
  {
    if mp.value < current then MaxPower(current, now) else mp
  }

  /** A series of power readings leaves the mark at the largest of them and its start value. */
  function RaiseAll(mp: MaxPower, readings: seq<(real, int)>): MaxPower
    decreases |readings|
  {
    if readings == [] then mp else RaiseAll(RaiseMaxPower(mp, readings[0].0, readings[0].1), readings[1..])
  }

  lemma {:induction false} RaiseAllIsHighWater(mp: MaxPower, readings: seq<(real, int)>)
    ensures RaiseAll(mp, readings).value >= mp.value
    ensures forall i :: 0 <= i < |readings| ==> RaiseAll(mp, readings).value >= readings[i].0
    ensures RaiseAll(mp, readings).value == mp.value
      || exists i :: 0 <= i < |readings| && RaiseAll(mp, readings).value == readings[i].0
    decreases |readings|
  {
    if readings != [] {
      var next := RaiseMaxPower(mp, readings[0].0, readings[0].1);
      RaiseAllIsHighWater(next, readings[1..]);
      assert forall i :: 1 <= i < |readings| ==> readings[1..][i - 1] == readings[i];
      if RaiseAll(mp, readings).value != mp.value && RaiseAll(next, readings[1..]).value == next.value {
        assert RaiseAll(mp, readings).value == readings[0].0;
      }
    }
  }

  /** The wrapper object: its identifiers and the maximum-power mark kept in `maxPower.json`. */
  class SolaredgeApi {
    const siteId: string
    const apiKey: string
    const inverterId: string
    /** The file `maxPower.json`. */
    const maxPowerFile: FileStore<MaxPower>

    var maxPower: MaxPower

    /** Reads the mark from its file, or starts from 0.001 stamped now. */
    constructor (siteId: string, apiKey: string, inverterId: string, maxPowerFile: FileStore<MaxPower>, now: int)
      ensures this.siteId == siteId && this.apiKey == apiKey && this.inverterId == inverterId
      ensures this.maxPowerFile == maxPowerFile
      ensures maxPowerFile.contents.Parsed? ==> maxPower == maxPowerFile.contents.value
      ensures !maxPowerFile.contents.Parsed? ==> maxPower == MaxPower(DefaultMaxPowerValue, now)
    {
      this.siteId := siteId;
      this.apiKey := apiKey;
      this.inverterId := inverterId;
      this.maxPowerFile := maxPowerFile;
      if maxPowerFile.contents.Parsed? {
        maxPower := maxPowerFile.contents.value;
      } else {
        maxPower := MaxPower(DefaultMaxPowerValue, now);
      }
    }

    /** The `maxPower` setter: stamp, store the value, then write the file. */
    method SetMaxPower(power: real, now: int) returns (r: Result<(), ApiError>)
      modifies this, maxPowerFile
      ensures maxPower == MaxPower(power, now)
      ensures old(maxPowerFile.writable) ==> r.Success? && maxPowerFile.contents == Parsed(maxPower)
      ensures !old(maxPowerFile.writable) ==> r == Failure(WriteFailed) && unchanged(maxPowerFile)
      ensures maxPowerFile.writable == old(maxPowerFile.writable)
    {
      maxPower := maxPower.(timestamp := now);
      maxPower := maxPower.(value := power);
      if !maxPowerFile.writable {
        return Failure(WriteFailed);
      }
      maxPowerFile.contents := Parsed(maxPower);
      r := Success(());
    }

    /**
     * `fetchSiteDetails` after the request: a failed request is passed on; otherwise
     * the site's name and peak power are returned with the current mark, which is
     * read and not changed.
     */
    method FetchSiteDetails(fetched: Result<(string, real), string>) returns (r: Result<SiteDetails, ApiError>)
      ensures fetched.Failure? ==> r == Failure(RequestFailed(fetched.error))
      ensures fetched.Success? ==>
        r.Success? && r.value.name == fetched.value.0
        && r.value.peakPower == fetched.value.1 && r.value.maxPower == maxPower
    {
      if fetched.Failure? {
        return Failure(RequestFailed(fetched.error));
      }
      r := Success(SiteDetails(fetched.value.0, fetched.value.1, maxPower));
    }

    /**
     * `fetchCurrentPowerFlow` after the request: a failed request is passed on; a
     * power flow raises the mark when its PV power is above it, and is returned.
     */
    method FetchCurrentPowerFlow(fetched: Result<PowerFlow, string>, now: int)
      returns (r: Result<PowerFlow, ApiError>)
      modifies this, maxPowerFile
      ensures fetched.Failure? ==>
        r == Failure(RequestFailed(fetched.error)) && unchanged(this) && unchanged(maxPowerFile)
      ensures fetched.Success? ==> maxPower == RaiseMaxPower(old(maxPower), fetched.value.pv.currentPower, now)
      ensures fetched.Success? && old(maxPower).value >= fetched.value.pv.currentPower ==>
        r == Success(fetched.value) && unchanged(maxPowerFile)
      ensures fetched.Success? && old(maxPower).value < fetched.value.pv.currentPower ==>
        (if old(maxPowerFile.writable)
         then r == Success(fetched.value) && maxPowerFile.contents == Parsed(maxPower)
         else r == Failure(WriteFailed))
    {
      if fetched.Failure? {
        return Failure(RequestFailed(fetched.error));
      }
      var flow := fetched.value;
      if maxPower.value < flow.pv.currentPower {
        var written := SetMaxPower(flow.pv.currentPower, now);
        if written.Failure? {
          return Failure(written.error);
        }
      }
      r := Success(flow);
    }
  }
}
