/**
 * The records that pass between the SolarEdge API wrapper, the node helper and the
 * display module: the power flow, daily energy values, battery telemetry, the
 * maximum-power mark and the socket notifications.
 */
module SiteData {
  import opened Wrappers

  /** One component of the power flow (`PV`, `LOAD`, `GRID`). */
  datatype Component = Component(status: string, currentPower: real)

  /** The `STORAGE` component, present only on sites with a battery. */
  datatype Storage = Storage(status: string, currentPower: real, chargeLevel: real, critical: bool)

  /** A power connection between two components, e.g. from "PV" to "Load". */
  datatype Connection = Connection(from: string, to: string)

  /** The current power flow of the site: its unit, connections and components. */
  datatype PowerFlow = PowerFlow(
    unit: string,
    connections: seq<Connection>,
    grid: Component,
    load: Component,
    pv: Component,
    storage: Option<Storage>)

  /** The highest PV power seen, and when. */
  datatype MaxPower = MaxPower(value: real, timestamp: int)

  /** The site as the display shows it. */
  datatype SiteDetails = SiteDetails(name: string, peakPower: real, maxPower: MaxPower)

  /** One entry of an energy list: a date-time string and a value. */
  datatype DayValue = DayValue(date: string, value: real)

  /** `energy`: the unit and the daily values. */
  datatype Energy = Energy(unit: string, values: seq<DayValue>)

  /** The production reply. */
  datatype Production = Production(unit: string, productionToday: real, productionYesterday: real)

  /** When production started and stopped on a day. */
  datatype ProductionSpan = ProductionSpan(day: int, firstProduction: string, lastProduction: string)

  /** One storage record of `fetchStorageData`. */
  datatype StorageRecord = StorageRecord(
    timeStamp: string, socPercent: real, temp: real, power: real, acGridCharging: real)

  /** The autarchy reply; the ratio itself is computed in floating point. */
  datatype Autarchy = Autarchy(from: string, to: string, percentage: real)

  /** A payload the model stores without looking inside it (vehicle data, spot prices). */
  datatype Opaque = Opaque(json: string)

  /** What a PVERROR or TESLAERROR carries. */
  datatype ErrorDetail =
    | TransportError(message: string)   // the `error` of a failed request
    | ErrorBody(body: string)           // the body of a 4xx reply
    | ConfigurationMissing              // the TypeError of reading `config.siteId` before CONFIG

  /** The socket notifications the display module reacts to. */
  datatype SocketNotification =
    | SiteDetailsNote(details: SiteDetails)
    | PowerFlowNote(powerflow: PowerFlow, requestCount: nat, productionSpan: Option<ProductionSpan>)
    | ProductionNote(production: Production)
    | AutarchyNote(autarchy: Autarchy)
    | TeslaNote(tesla: Opaque)
    | SpotPricesNote(spotPrices: Opaque)
    | StorageDataNote(records: seq<StorageRecord>)
    | UserPresenceNote(present: bool)
    | PvErrorNote(detail: ErrorDetail)
    | TeslaErrorNote(detail: ErrorDetail)
}
