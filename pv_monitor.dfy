/**
 * The display module's decisions that do not depend on the page: whether power
 * flows between two components, which image shows a component or the battery, the
 * unit a power or an energy is shown in, and how the module's state follows the
 * socket notifications (the maximum-power mark and the last error).
 */
module PvMonitor {
  import opened Wrappers
  import opened JsSemantics
  import opened SiteData
  import opened SolaredgeApi

  /**
   * `hasFlow`: true exactly when some connection runs from `from` to `to`, both
   * compared ignoring case.
   */
  method HasFlow(powerFlow: PowerFlow, from: string, to: string) returns (b: bool)
    ensures b <==> exists i :: (0 <= i < |powerFlow.connections|
      && EqualsIgnoringCase(powerFlow.connections[i].from, from)
      && EqualsIgnoringCase(powerFlow.connections[i].to, to))
  {
    var lowerFrom := ToLower(from);
    var lowerTo := ToLower(to);
    var connections := powerFlow.connections;
    for i := 0 to |connections|
      invariant forall k :: 0 <= k < i ==>
        !(EqualsIgnoringCase(connections[k].from, from) && EqualsIgnoringCase(connections[k].to, to))
    {
      if ToLower(connections[i].from) == lowerFrom && ToLower(connections[i].to) == lowerTo {
        return true;
      }
    }
    return false;
  }

  /** The battery's charge level rounded to the nearest ten percent, halves rounded up. */
  function StorageLevel(chargeLevel: real): (level: int)
    ensures level % 10 == 0
    ensures level as real - 5.0 <= chargeLevel < level as real + 5.0
    ensures 0.0 <= chargeLevel <= 100.0 ==> 0 <= level <= 100
  {
    Round(chargeLevel / 10.0) * 10
  }

  /** `getStorageImage`: the battery image for the rounded level ("00" for 0), or an empty one without a battery. */
  function StorageImage(storage: Option<Storage>): (file: string)
    ensures storage.None? ==> file == "Images/Empty.svg"
    ensures storage.Some? ==>
      var level := StorageLevel(storage.value.chargeLevel);
      file == "Images/EL_" + (if level == 0 then "00" else IntToString(level)) + ".svg"
  {
    match storage
    case None => "Images/Empty.svg"
    case Some(s) =>
      var level := StorageLevel(s.chargeLevel);
      "Images/EL_" + (if level == 0 then "00" else IntToString(level)) + ".svg"
  }

  /** The rank of a PV activity status, from 0 for "Active_0" to 4 for "Active_100". */
  function ActivityRank(status: string): int {
    if status == "Active_0" then 0
    else if status == "Active_25" then 1
    else if status == "Active_50" then 2
    else if status == "Active_75" then 3
    else 4
  }

  /**
   * The PV status of `getComponentImage`: an "Active" PV is shown by the share of the
   * maximum power it delivers, in buckets below 0.1, 0.25, 0.5 and 0.75 and above.
   * Dividing by a zero maximum gives an infinity (or NaN for 0 / 0), which compares
   * as the largest share unless the power is negative.
   */
  function PvStatus(status: string, currentPower: real, maxPower: real): (r: string)
    ensures status != "Active" ==> r == status
    ensures status == "Active" && maxPower > 0.0 ==>
      (r == "Active_0" <==> currentPower < 0.1 * maxPower)
      && (r == "Active_25" <==> 0.1 * maxPower <= currentPower < 0.25 * maxPower)
      && (r == "Active_50" <==> 0.25 * maxPower <= currentPower < 0.5 * maxPower)
      && (r == "Active_75" <==> 0.5 * maxPower <= currentPower < 0.75 * maxPower)
      && (r == "Active_100" <==> 0.75 * maxPower <= currentPower)
    ensures status == "Active" && maxPower == 0.0 ==>
      r == (if currentPower < 0.0 then "Active_0" else "Active_100")
  {
    if status != "Active" then status
    else if maxPower == 0.0 then (if currentPower < 0.0 then "Active_0" else "Active_100")
    else
      var amount := currentPower / maxPower;
      ShareBelow(currentPower, maxPower);
      if amount < 0.1 then "Active_0"
      else if amount < 0.25 then "Active_25"
      else if amount < 0.5 then "Active_50"
      else if amount < 0.75 then "Active_75"
      else "Active_100"
  }

  /** Against a positive maximum, a share is below a threshold exactly when the power is below that part of the maximum. */
  lemma ShareBelow(power: real, maxPower: real)
    requires maxPower != 0.0
    ensures maxPower > 0.0 ==>
      (power / maxPower < 0.1 <==> power < 0.1 * maxPower)
      && (power / maxPower < 0.25 <==> power < 0.25 * maxPower)
      && (power / maxPower < 0.5 <==> power < 0.5 * maxPower)
      && (power / maxPower < 0.75 <==> power < 0.75 * maxPower)
  {
    if maxPower > 0.0 {
      ShareBelowThreshold(power, maxPower, 0.1);
      ShareBelowThreshold(power, maxPower, 0.25);
      ShareBelowThreshold(power, maxPower, 0.5);
      ShareBelowThreshold(power, maxPower, 0.75);
    }
  }

  lemma ShareBelowThreshold(power: real, maxPower: real, t: real)
    requires maxPower > 0.0
    ensures power / maxPower < t <==> power < t * maxPower
  {
    var x := power / maxPower;
    assert x * maxPower == power;
    ScaleBelow(x, t, maxPower);
  }

  /** Multiplying by a positive factor keeps `<`. */
  lemma ScaleBelow(x: real, t: real, m: real)
    requires m > 0.0
    ensures x < t <==> x * m < t * m
  {
    if x < t {
      assert (t - x) * m > 0.0;
    } else {
      assert (x - t) * m >= 0.0;
    }
  }

  /** With a positive maximum, more PV power never shows a lower activity image. */
  lemma {:induction false} PvStatusMonotonic(p1: real, p2: real, maxPower: real)
    requires maxPower > 0.0 && p1 <= p2
    ensures ActivityRank(PvStatus("Active", p1, maxPower)) <= ActivityRank(PvStatus("Active", p2, maxPower))
  {
    var r1 := PvStatus("Active", p1, maxPower);
    var r2 := PvStatus("Active", p2, maxPower);
    assert r1 in {"Active_0", "Active_25", "Active_50", "Active_75", "Active_100"};
    assert r2 in {"Active_0", "Active_25", "Active_50", "Active_75", "Active_100"};
  }

  /**
   * `getComponentImage`: the component's name followed by its status. The switch is on
   * the name: "PV" is bucketed against the maximum power, "Load" and "Grid" show their
   * status, and any other name gets no status.
   */
  function ComponentImage(component: string, powerFlow: PowerFlow, maxPower: real): (file: string)
    ensures component == "PV" ==>
      file == "Images/PV" + PvStatus(powerFlow.pv.status, powerFlow.pv.currentPower, maxPower) + ".svg"
    ensures component == "Load" ==> file == "Images/Load" + powerFlow.load.status + ".svg"
    ensures component == "Grid" ==> file == "Images/Grid" + powerFlow.grid.status + ".svg"
    ensures component !in {"PV", "Load", "Grid"} ==> file == "Images/" + component + ".svg"
  {
    var status :=
      if component == "PV" then PvStatus(powerFlow.pv.status, powerFlow.pv.currentPower, maxPower)
      else if component == "Load" then powerFlow.load.status
      else if component == "Grid" then powerFlow.grid.status
      else "";
    assert "Images/" + component + status + ".svg" == "Images/" + (component + status) + ".svg";
    "Images/" + component + status + ".svg"
  }

  /** A value and the unit it is shown in. */
  datatype Quantity = Quantity(value: real, unit: string)

  /** Watts per unit of a power unit the API uses. */
  function WattsPer(unit: string): real {
    if EqualsIgnoringCase(unit, "kw") then 1000.0 else 1.0
  }

  /** `beautifyPower`: below 1 kW the power is shown in W. */
  function BeautifyPower(value: real, unit: string): (q: Quantity)
    ensures EqualsIgnoringCase(unit, "kw") && value < 1.0 ==> q == Quantity(value * 1000.0, "W")
    ensures !(EqualsIgnoringCase(unit, "kw") && value < 1.0) ==> q == Quantity(value, unit)
  {
    if ToLower(unit) == "kw" && value < 1.0 then Quantity(value * 1000.0, "W") else Quantity(value, unit)
  }

  /**
   * The power shown is the power given, and a kW value is shown in kW only from 1 kW
   * on; beautifying again changes nothing.
   */
  lemma BeautifyPowerKeepsPower(value: real, unit: string)
    requires unit == "kW" || unit == "W"
    ensures var q := BeautifyPower(value, unit);
      q.value * WattsPer(q.unit) == value * WattsPer(unit)
      && (q.unit == "kW" ==> q.value >= 1.0)
      && BeautifyPower(q.value, q.unit) == q
  {
    assert ToLower("kW") == "kw" && ToLower("W") == "w";
  }

  /** A whole number of tenths. */
  function Tenths(t: int): real {
    t as real / 10.0
  }

  /** `beautifyEnergy`: above 1000 Wh the energy is shown in kWh, to one decimal. */
  function BeautifyEnergy(value: real, unit: string): (q: Quantity)
    ensures !(EqualsIgnoringCase(unit, "wh") && value > 1000.0) ==> q == Quantity(value, unit)
    ensures EqualsIgnoringCase(unit, "wh") && value > 1000.0 ==>
      q.unit == "kWh" && -50.0 < q.value * 1000.0 - value <= 50.0
    ensures EqualsIgnoringCase(unit, "wh") && value > 1000.0 ==> exists t: int :: q.value == Tenths(t)
  {
    if ToLower(unit) == "wh" && value > 1000.0 then
      var tenths := Round(value / 100.0);
      KilowattHoursClose(value, tenths);
      assert Quantity(Tenths(tenths), "kWh").value == Tenths(tenths);
      Quantity(Tenths(tenths), "kWh")
    else Quantity(value, unit)
  }

  /** Rounding to hundreds of Wh lands within 50 Wh. */
  lemma KilowattHoursClose(value: real, tenths: int)
    requires tenths as real - 0.5 <= value / 100.0 < tenths as real + 0.5
    ensures -50.0 < (tenths as real / 10.0) * 1000.0 - value <= 50.0
  {
    var x := value / 100.0;
    var t := tenths as real;
    assert (t / 10.0) * 1000.0 == t * 100.0;
    assert value == x * 100.0;
    assert (x - (t - 0.5)) * 100.0 >= 0.0;
    assert ((t + 0.5) - x) * 100.0 > 0.0;
  }

  /** Beautifying an energy twice is beautifying it once. */
  lemma BeautifyEnergyIdempotent(value: real, unit: string)
    ensures var q := BeautifyEnergy(value, unit); BeautifyEnergy(q.value, q.unit) == q
  {
    var q := BeautifyEnergy(value, unit);
    if q.unit == "kWh" {
      assert ToLower("kWh") == "kwh";
    }
  }

  /**
   * The display's update of the mark on POWERFLOW: the mark moves to the PV power
   * whenever that power is at least the mark, stamped now.
   */
  function RaiseIfAtLeast(mp: MaxPower, current: real, now: int): (r: MaxPower)
    ensures r.value >= mp.value && r.value >= current
    ensures r.value == mp.value || r.value == current
    ensures current >= mp.value <==> r == MaxPower(current, now)
  {
    if current >= mp.value then MaxPower(current, now) else mp
  }

  /**
   * The display's `>=` and the API wrapper's `<` keep the same value; only a power
   * equal to the mark restamps it here and not there.
   */
  lemma AtLeastAgreesWithStrict(mp: MaxPower, current: real, now: int)
    ensures RaiseIfAtLeast(mp, current, now).value == RaiseMaxPower(mp, current, now).value
    ensures RaiseIfAtLeast(mp, current, now) != RaiseMaxPower(mp, current, now) <==>
      current == mp.value && now != mp.timestamp
  {
  }

  /** The module's fields that the notifications change. */
  datatype Display = Display(
    siteDetails: SiteDetails,
    lastError: Option<ErrorDetail>,
    powerFlow: Option<PowerFlow>,
    requestCount: nat,
    productionSpan: Option<ProductionSpan>,
    timestamp: Option<int>,
    energy: Option<Production>,
    autarchy: Option<Autarchy>,
    teslaData: Option<Opaque>,
    spotPrices: Option<Opaque>,
    storageData: Option<seq<StorageRecord>>)

  /** The state the module starts in, `now` being when it was loaded. */
  function Initial(now: int): Display {
    Display(SiteDetails("Unknown", 1.0, MaxPower(DefaultMaxPowerValue, now)), None, None, 0,
      Some(ProductionSpan(now, "unknown", "unknown")), None, None, None, None, None, None)
  }

  /** `socketNotificationReceived` on the module's state. */
  function Receive(d: Display, note: SocketNotification, now: int): (r: Display)
    ensures note.PvErrorNote? || note.TeslaErrorNote? ==> r.lastError == Some(note.detail)
    ensures note.PowerFlowNote? || note.ProductionNote? || note.AutarchyNote? ==> r.lastError == None
    ensures (note.SiteDetailsNote? || note.TeslaNote? || note.SpotPricesNote? || note.StorageDataNote?
             || note.UserPresenceNote?) ==> r.lastError == d.lastError
    ensures note.SiteDetailsNote? ==> r.siteDetails == note.details
    ensures !note.SiteDetailsNote? ==>
      r.siteDetails.maxPower.value >= d.siteDetails.maxPower.value
      && r.siteDetails.name == d.siteDetails.name && r.siteDetails.peakPower == d.siteDetails.peakPower
    ensures note.PowerFlowNote? ==>
      r.siteDetails.maxPower == RaiseIfAtLeast(d.siteDetails.maxPower, note.powerflow.pv.currentPower, now)
      && r.siteDetails.maxPower.value >= note.powerflow.pv.currentPower
      && r.powerFlow == Some(note.powerflow) && r.requestCount == note.requestCount
      && r.productionSpan == note.productionSpan && r.timestamp == Some(now)
    ensures !note.PowerFlowNote? ==> r.siteDetails.maxPower == d.siteDetails.maxPower || note.SiteDetailsNote?
  {
    match note
    case SiteDetailsNote(details) => d.(siteDetails := details)
    case PowerFlowNote(flow, count, span) =>
      var mp := RaiseIfAtLeast(d.siteDetails.maxPower, flow.pv.currentPower, now);
      d.(lastError := None, powerFlow := Some(flow), requestCount := count, productionSpan := span,
         timestamp := Some(now), siteDetails := d.siteDetails.(maxPower := mp))
    case ProductionNote(production) => d.(lastError := None, energy := Some(production))
    case AutarchyNote(autarchy) => d.(lastError := None, autarchy := Some(autarchy))
    case TeslaNote(tesla) => d.(teslaData := Some(tesla))
    case SpotPricesNote(prices) => d.(spotPrices := Some(prices))
    case StorageDataNote(records) => d.(storageData := Some(records))
    case UserPresenceNote(_) => d
    case PvErrorNote(detail) => d.(lastError := Some(detail))
    case TeslaErrorNote(detail) => d.(lastError := Some(detail))
  }

  /** The notifications received one after the other, all at `now`. */
  function ReceiveAll(d: Display, notes: seq<SocketNotification>, now: int): Display
    decreases |notes|
  {
    if notes == [] then d else ReceiveAll(Receive(d, notes[0], now), notes[1..], now)
  }

  /**
   * Without a SITEDETAILS in between, the mark never goes down and ends at least at
   * the PV power of every POWERFLOW received.
   */
  lemma {:induction false} MarkCoversEveryPowerFlow(d: Display, notes: seq<SocketNotification>, now: int)
    requires forall i :: 0 <= i < |notes| ==> !notes[i].SiteDetailsNote?
    ensures var r := ReceiveAll(d, notes, now);
      r.siteDetails.maxPower.value >= d.siteDetails.maxPower.value
      && forall i :: 0 <= i < |notes| && notes[i].PowerFlowNote? ==>
           r.siteDetails.maxPower.value >= notes[i].powerflow.pv.currentPower
    decreases |notes|
  {
    if notes != [] {
      var next := Receive(d, notes[0], now);
      MarkCoversEveryPowerFlow(next, notes[1..], now);
      assert forall i :: 1 <= i < |notes| ==> notes[1..][i - 1] == notes[i];
    }
  }

  /** The notifications whose handler sets or clears `lastError`. */
  predicate TouchesError(note: SocketNotification) {
    note.PvErrorNote? || note.TeslaErrorNote? || note.PowerFlowNote? || note.ProductionNote? || note.AutarchyNote?
  }

  /** The last error a notification leaves behind: its detail for an error, none for a reply. */
  function ErrorLeftBy(note: SocketNotification): Option<ErrorDetail> {
    if note.PvErrorNote? || note.TeslaErrorNote? then Some(note.detail) else None
  }

  /** Notifications that do not touch the last error leave it as it was. */
  lemma {:induction false} OthersKeepLastError(d: Display, notes: seq<SocketNotification>, now: int)
    requires forall j :: 0 <= j < |notes| ==> !TouchesError(notes[j])
    ensures ReceiveAll(d, notes, now).lastError == d.lastError
    decreases |notes|
  {
    if notes != [] {
      assert forall j :: 1 <= j < |notes| ==> notes[1..][j - 1] == notes[j];
      OthersKeepLastError(Receive(d, notes[0], now), notes[1..], now);
    }
  }

  /**
   * After any series of notifications, the last error is the one left by the last
   * notification that touches it (`k`), whatever comes after that notification.
   */
  lemma {:induction false} LastErrorFollowsLastReply(d: Display, notes: seq<SocketNotification>, now: int, k: nat)
    requires k < |notes| && TouchesError(notes[k])
    requires forall j :: k < j < |notes| ==> !TouchesError(notes[j])
    ensures ReceiveAll(d, notes, now).lastError == ErrorLeftBy(notes[k])
    decreases |notes|
  {
    assert forall j :: 1 <= j < |notes| ==> notes[1..][j - 1] == notes[j];
    if k == 0 {
      OthersKeepLastError(Receive(d, notes[0], now), notes[1..], now);
    } else {
      LastErrorFollowsLastReply(Receive(d, notes[0], now), notes[1..], now, k - 1);
    }
  }

  /** The display module's state, held in place. */
  class PvMonitor {
    var siteDetails: SiteDetails
    var lastError: Option<ErrorDetail>
    var powerFlow: Option<PowerFlow>
    var requestCount: nat
    var productionSpan: Option<ProductionSpan>
    var timestamp: Option<int>
    var energy: Option<Production>
    var autarchy: Option<Autarchy>
    var teslaData: Option<Opaque>
    var spotPrices: Option<Opaque>
    var storageData: Option<seq<StorageRecord>>

    function State(): Display
      reads this
    {
      Display(siteDetails, lastError, powerFlow, requestCount, productionSpan, timestamp,
        energy, autarchy, teslaData, spotPrices, storageData)
    }

    constructor (now: int)
      ensures State() == Initial(now)
    {
      siteDetails := SiteDetails("Unknown", 1.0, MaxPower(DefaultMaxPowerValue, now));
      lastError := None;
      powerFlow := None;
      requestCount := 0;
      productionSpan := Some(ProductionSpan(now, "unknown", "unknown"));
      timestamp := None;
      energy := None;
      autarchy := None;
      teslaData := None;
      spotPrices := None;
      storageData := None;
    }

    /** Applies one socket notification to the fields, as the module does. */
    method SocketNotificationReceived(note: SocketNotification, now: int)
      modifies this
      ensures State() == Receive(old(State()), note, now)
    {
      match note
      case SiteDetailsNote(details) =>
        siteDetails := details;
      case PowerFlowNote(flow, count, span) =>
        lastError := None;
        powerFlow := Some(flow);
        requestCount := count;
        productionSpan := span;
        timestamp := Some(now);
        if flow.pv.currentPower >= siteDetails.maxPower.value {
          siteDetails := siteDetails.(maxPower := siteDetails.maxPower.(value := flow.pv.currentPower));
          siteDetails := siteDetails.(maxPower := siteDetails.maxPower.(timestamp := now));
        }
      case ProductionNote(production) =>
        lastError := None;
        energy := Some(production);
      case AutarchyNote(a) =>
        lastError := None;
        autarchy := Some(a);
      case TeslaNote(tesla) =>
        teslaData := Some(tesla);
      case SpotPricesNote(prices) =>
        spotPrices := Some(prices);
      case StorageDataNote(records) =>
        storageData := Some(records);
      case UserPresenceNote(_) =>
      case PvErrorNote(detail) =>
        lastError := Some(detail);
      case TeslaErrorNote(detail) =>
        lastError := Some(detail);
    }
  }
}
