# MMM-PVMonitor in Dafny

A Dafny model of the logic behind MMM-PVMonitor, a MagicMirror module that shows
the state of a SolarEdge photovoltaic site. The module has five parts:

- a call throttler, which guards the monitoring API's daily call budget;
- a spot-price series, kept in a cache file;
- a wrapper around the SolarEdge monitoring API;
- a server-side node helper, which schedules the fetches and relays the replies;
- the display module, which keeps the latest data and chooses images and units.

The model keeps the part of each that decides something and proves what it promises.
HTTP requests, files, timers and the page are the inputs and outputs of the model:

- a file is a `Persistence.FileStore` holding `Missing`, `Unparsable` or a parsed value;
- the clock is a `Throttling.Clock`: the current instant, plus the hour and the day of
  the month of any instant;
- a fetch is the `Result` it delivered;
- timers are abstract handles in a map;
- outgoing requests and socket notifications are appended to sequences.

Modules, one per source file, plus shared helpers:

- `Throttling` (`throttler.dfy`) holds the `Throttler` class. Its `Execute` is proved
  equal to the pure step `ExecuteStep`, whose contract states the four policies in
  checking order: total cap, minimum spacing, daily cap with day rollover, and an
  inclusive, non-wrapping hour window. JavaScript truthiness is kept: a policy of 0 or
  `undefined` is off, and a last-call timestamp of 0 counts as no last call.
- `SpotPrices` (`spot_prices.dfy`) derives, from a price document, prices in integer
  tenths of ct/kWh (`Math.round(p)`, with the `/ 10` left symbolic), dates in
  milliseconds, the date range and the first cheapest and first dearest index. The
  class's loader and its update (stamp, write, reload) are proved against the pure
  `ReadCached`.
- `SolaredgeApi` (`solaredge_api.dfy`) holds:
  - the day lookup (the last match wins);
  - the first-meter sum;
  - the API date-time format, and the rounding of such a time to 5 minutes;
  - the chart series and the storage records;
  - the maximum-power mark and its file.
- `NodeHelper` (`node_helper.dfy`) is the helper's state machine:
  - CONFIG and USER_PRESENCE;
  - the timers;
  - the throttled and unthrottled fetches;
  - the response classification, and the notifications it sends.
- `PvMonitor` (`pv_monitor.dfy`) holds:
  - `hasFlow`;
  - the image choices for components and the battery;
  - the unit switches;
  - the display state under every socket notification.
- `SiteData`, `JsSemantics`, `Persistence` and `Wrappers` hold:
  - the records shared between the modules;
  - the JavaScript built-ins the code relies on: `Math.round`, `substr`, `indexOf`,
    `toLocaleLowerCase`, `parseInt` and number-to-string;
  - the file store;
  - `Option` and `Result`.

Where one might expect more, the model follows the code:

- the hour window does not wrap past midnight, so the helper's window (22, 8) never
  throttles;
- there is no override hook;
- `reset` keeps the three number policies;
- there is no refresh with retry and backoff;
- there are no "today" extrema;
- a getter on an empty series returns `undefined` rather than failing.

## Model

| member | source | states |
|---|---|---|
| Throttling.InWindow | Throttler.js:85-93 | the hour test is inclusive; a window with start > end contains no hour |
| Throttling.ExecuteStep | Throttler.js:54-101 | a call runs iff no policy refuses it; a refused call reports the first refusing policy in order max calls, spacing, daily cap, hours, counts one throttled call, keeps total and last call, and keeps the day-rollover reset once the daily check was reached; an accepted call counts once in total and today and becomes the last call; accepted calls never pass the caps; callsToday <= totalCallCount is preserved |
| Throttling.Force | Throttler.js:44-52 | a forced call counts once more in the total and today's calls, leaves the throttled count and stamps the call now |
| Throttling.ForceIsUnrestrictedCall | Throttler.js:44-52 | a forced call is a call under no policy: it runs and counts like an accepted call |
| Throttling.ForceIsAcceptedCall | Throttler.js:44-52 | when the day has not rolled over, a forced call leaves the counters as an accepted call does |
| Throttling.RunRespectsMaxCalls | Throttler.js:55-61 | with maxCalls = n > 0 no series of calls raises totalCallCount above n |
| Throttling.RunCountsEveryCall | Throttler.js:54-101 | every call of a series is counted exactly once, as run or as throttled |
| Throttling.RunWithOnlyMaxCalls | Throttler.js:55-61 | under a cap n alone, calls run until n have run and all later ones are throttled |
| Throttling.TwentyCallsAfterResetRunFive | ThrottlerTest.js:23-28 | after reset with maxCalls = 5, twenty calls give five runs and fifteen throttled calls |
| Throttling.Throttler.constructor | Throttler.js:3-14 | a new throttler has zero counters, no last call and no policies |
| Throttling.Throttler.SetThrottleHours | Throttler.js:32-34 | sets the window and changes nothing else |
| Throttling.Throttler.Reset | Throttler.js:36-42 | zeroes the counters, clears the last call and the window, keeps maxCalls, maxCallsPerDay and minimumTimeBetweenCalls |
| Throttling.Throttler.ForceExecute | Throttler.js:44-52 | always returns true and counts and stamps the call, whatever the policies |
| Throttling.Throttler.Execute | Throttler.js:54-102 | the new counters and the outcome are those of ExecuteStep on the old state |
| SpotPrices.ToTenths | SpotPrices.js:81 | one rounded price per price, index for index |
| SpotPrices.ToMillis | SpotPrices.js:84 | one date in milliseconds per Unix second, index for index |
| SpotPrices.Minimum | SpotPrices.js:86 | the minimum date is one of the dates and not above any of them |
| SpotPrices.Maximum | SpotPrices.js:87 | the maximum date is one of the dates and not below any of them |
| SpotPrices.ReduceMin | SpotPrices.js:52-56 | after n elements the fold holds the first index of a minimum among them |
| SpotPrices.ReduceMax | SpotPrices.js:62-66 | after n elements the fold holds the first index of a maximum among them |
| SpotPrices.IndexOfMin | SpotPrices.js:51-58 | an in-bounds index whose price is at most every price, every earlier price strictly greater; 0 for an empty array |
| SpotPrices.IndexOfMax | SpotPrices.js:61-68 | an in-bounds index whose price is at least every price, every earlier price strictly smaller; 0 for an empty array |
| SpotPrices.ReadCached | SpotPrices.js:74-98 | an unreadable cache leaves the state and returns false; a parsed cache sets the data (so hasPrices holds) and returns true exactly when both arrays are present, in which case every derived field is that of the document; a cache without prices sets only the data, and one with prices but no timestamps also sets the prices and unit, keeping the old dates and indices |
| SpotPrices.LoadForgetsPriorState | SpotPrices.js:74-98 | a successful load does not depend on the state before it |
| SpotPrices.MinPrice | SpotPrices.js:43 | a TypeError when there are no prices, undefined exactly when the minimum index is unset or outside them, otherwise one of the prices |
| SpotPrices.MaxPrice | SpotPrices.js:44 | a TypeError when there are no prices, undefined exactly when the maximum index is unset or outside them, otherwise one of the prices |
| SpotPrices.MinPriceDate | SpotPrices.js:46 | a TypeError when there are no dates, undefined exactly when the minimum index is unset or outside them, otherwise one of the dates |
| SpotPrices.MaxPriceDate | SpotPrices.js:47 | a TypeError when there are no dates, undefined exactly when the maximum index is unset or outside them, otherwise one of the dates |
| SpotPrices.GettersThrowWithoutLoad | SpotPrices.js:24-47 | when the cache is missing, unreadable or has no prices, all four getters throw a TypeError on a new object |
| SpotPrices.LoadedExtremes | SpotPrices.js:43-47 | after a load, minPrice <= every price <= maxPrice, both are prices of the document, and minPriceDate/maxPriceDate are the dates at the same indices |
| SpotPrices.LoadedDateRange | SpotPrices.js:86-87 | after a load with dates, minDate and maxDate are dates of the series and bound all of them |
| SpotPrices.UpdateLoadsWrittenDocument | SpotPrices.js:125-129 | after stamping and writing a document, reloading gives exactly its derived state, with the new update timestamp |
| SpotPrices.SpotPrices.constructor | SpotPrices.js:24-30 | a new object holds what loading the cache file into an empty state gives |
| SpotPrices.SpotPrices.ReadCachedPrices | SpotPrices.js:74-98 | the fields and the result are those of ReadCached on the old fields and the file |
| SpotPrices.SpotPrices.SetPrices | SpotPrices.js:78-82 | stores the rounded prices and the unit |
| SpotPrices.SpotPrices.SetDates | SpotPrices.js:84-91 | stores the dates, their range, the extreme indices and the update timestamp |
| SpotPrices.SpotPrices.UpdateSpotPrices | SpotPrices.js:116-134 | a failed fetch is passed on and writes nothing; a failed write is passed on; otherwise the file holds the stamped document and the fields are its load |
| SolaredgeApi.LastIndexForDay | SolaredgeAPI.js:133-142 | the index of the last entry whose date contains the day, and None exactly when no entry does |
| SolaredgeApi.ProductionForDay | SolaredgeAPI.js:133-142 | defined by LastIndexForDay: 0 without a matching entry, else the last matching entry's value |
| SolaredgeApi.ProductionIsLastMatch | SolaredgeAPI.js:133-142 | the production is 0 when no entry's date contains the day, and the value of the matching entry that no later matching entry follows otherwise |
| SolaredgeApi.FindProductionForDay | SolaredgeAPI.js:133-142 | the value of the last entry whose date contains the day, or 0 when none does; the node helper's copy of this loop (node_helper.js:103-112) is the same and uses this member too |
| SolaredgeApi.FirstMeterIndex | SolaredgeAPI.js:186-198 | the first meter whose type equals the name ignoring case, and None exactly when none does |
| SolaredgeApi.SumValuesFor | SolaredgeAPI.js:186-198 | the sum of the values of the first matching meter only, 0 when no meter matches |
| SolaredgeApi.FormatDateTimeForApi | SolaredgeAPI.js:270-282 | the text is the year followed by 15 characters and ends in ":00" |
| SolaredgeApi.FormatDateTimeReadsBack | SolaredgeAPI.js:270-282 | for a four-digit year the text is "YYYY-MM-DD HH:MM:00", 19 characters, whose fields read back as the year, month + 1, day, hour and minute |
| SolaredgeApi.RoundApiTime | SolaredgeAPI.js:284-292 | reads the hour and minute at offset 11 and renders them rounded; specified on API date-times by RoundApiTimeOfApiDateTime |
| SolaredgeApi.RenderRounded | SolaredgeAPI.js:288-291 | renders the hour and the floored minute, with a 0 before a minute below 10; specified by RenderRoundedParsed |
| SolaredgeApi.FloorTo | SolaredgeAPI.js:289 | the floored minute r is a multiple of the interval with r <= minute < r + interval |
| SolaredgeApi.RenderRoundedParsed | SolaredgeAPI.js:288-291 | a parsed hour and minute render as the hour, ':' and the floored minute, padded to two digits |
| SolaredgeApi.RoundApiTimeOfApiDateTime | SolaredgeAPI.js:284-292 | on a "YYYY-MM-DD HH:MM" text the rounded time is the unpadded hour and the minute floored to a multiple of the interval, padded |
| SolaredgeApi.RoundFormattedDateTime | SolaredgeAPI.js:270-292 | rounding a formatted date-time gives back its hour and its floored minute |
| SolaredgeApi.BuildDiagramData | SolaredgeAPI.js:240-268 | one temperature point per inverter telemetry and one charge point per telemetry of the first battery, in order, at the time rounded to 5 minutes; no battery is an error |
| SolaredgeApi.TemperatureSeries | SolaredgeAPI.js:246-251 | times and temperatures of the inverter telemetry, index for index |
| SolaredgeApi.ChargeSeries | SolaredgeAPI.js:253-258 | times and charge levels of the battery telemetry, index for index |
| SolaredgeApi.StorageRecords | SolaredgeAPI.js:357-365 | one record per telemetry of the first battery, in order, with socPercent = batteryPercentageState; no battery is an error |
| SolaredgeApi.RaiseMaxPower | SolaredgeAPI.js:103-105 | the mark becomes max(mark, PV power), moving and restamped only when the power is strictly above it |
| SolaredgeApi.RaiseAllIsHighWater | SolaredgeAPI.js:103-105 | over a series of readings the mark never goes down, ends at least at every reading, and is its start value or one of the readings |
| SolaredgeApi.SolaredgeApi.constructor | SolaredgeAPI.js:13-25 | the mark is read from its file, or is 0.001 stamped now when the file is missing or unparsable |
| SolaredgeApi.SolaredgeApi.SetMaxPower | SolaredgeAPI.js:40-45 | stamps and stores the value, then writes it; a failed write is reported after memory was updated |
| SolaredgeApi.SolaredgeApi.FetchSiteDetails | SolaredgeAPI.js:54-77 | a failed request is passed on as an error; otherwise the site's name and peak power are returned with the current mark, which is not changed |
| SolaredgeApi.SolaredgeApi.FetchCurrentPowerFlow | SolaredgeAPI.js:89-131 | a failed request is passed on unchanged; a power flow sets the mark to RaiseMaxPower of it, writes the file only when the mark rose, and is returned unless that write failed |
| NodeHelper.Classify | node_helper.js:72-94 | a transport error or a 4xx status gives PVERROR with the error or the body; only a 200 with a parsed body is delivered; everything else is ignored |
| NodeHelper.PowerFlowNotification | node_helper.js:82-92 | a delivered reply becomes exactly POWERFLOW with the parsed power flow and requestCount = calls today; an error verdict becomes PVERROR with its detail; an ignored reply sends nothing, and only then |
| NodeHelper.ProductionNotification | node_helper.js:141-155 | a delivered reply becomes PRODUCTION with the unit, yesterday's production from the start-date prefix and today's from the end-date prefix; an error verdict becomes PVERROR with its detail; an ignored reply sends nothing, and only then |
| NodeHelper.HelperHoursNeverThrottle | node_helper.js:17-20 | under the helper's policies the window (22, 8) never throttles |
| NodeHelper.HelperRefusals | node_helper.js:17-20 | under the helper's policies a call with a previous call is refused exactly when it is under a minute after it or 300 calls were made that day |
| NodeHelper.NodeHelper.constructor | node_helper.js:13-23 | a fresh throttler with 60000 ms spacing, 300 calls a day and hours (22, 8), zero counters, no configuration and no timers |
| NodeHelper.NodeHelper.FetchPowerFlow | node_helper.js:57-101 | with a configuration one power-flow request is issued; without one a PVERROR is sent instead |
| NodeHelper.NodeHelper.FetchProduction | node_helper.js:114-164 | with a configuration one production request from yesterday's date to today's is issued; without one a PVERROR is sent |
| NodeHelper.NodeHelper.ThrottledPowerFlow | node_helper.js:37 | the throttler takes one ExecuteStep under the helper's policies, and the fetch happens only if the call ran |
| NodeHelper.NodeHelper.SocketNotificationReceived | node_helper.js:25-55 | CONFIG stores the configuration, removes the old power-flow interval, adds a new one and a new production interval (old production intervals stay, so they accumulate), fetches both once past the throttler and leaves its counters; USER_PRESENCE true routes one fetch through the throttler; anything else changes nothing; at most one power-flow interval is ever live |
| NodeHelper.NodeHelper.Tick | node_helper.js:36-43 | a power-flow interval takes one throttler step and issues the request only when the step ran (PVERROR without a configuration), nothing when throttled; a production interval fetches directly, or sends PVERROR without a configuration; a cleared handle does nothing |
| NodeHelper.NodeHelper.Configure | node_helper.js:30-48 | the configuration is stored, the old power-flow interval is replaced, a production interval is added, and both fetches are issued once |
| NodeHelper.NodeHelper.ReceivePowerFlow | node_helper.js:71-95 | appends the notification of PowerFlowNotification, with the throttler's calls today when the reply arrives |
| NodeHelper.NodeHelper.ReceiveProduction | node_helper.js:130-158 | appends the notification of ProductionNotification for the request's dates |
| PvMonitor.HasFlow | MMM-PVMonitor.js:219-229 | true iff some connection runs from `from` to `to`, both compared ignoring case |
| PvMonitor.StorageLevel | MMM-PVMonitor.js:208 | the level is a multiple of 10 within 5 of the charge level, and within 0..100 for a charge level in 0..100 |
| PvMonitor.StorageImage | MMM-PVMonitor.js:205-217 | the battery image names the rounded level, "00" for 0; no battery gives Images/Empty.svg |
| PvMonitor.PvStatus | MMM-PVMonitor.js:180-191 | a non-Active status passes through; an Active PV is bucketed by its share of the maximum: below 0.1, 0.25, 0.5, 0.75, and above; a zero maximum shows Active_100 unless the power is negative |
| PvMonitor.PvStatusMonotonic | MMM-PVMonitor.js:183-189 | with a positive maximum, more power never gives a lower bucket |
| PvMonitor.ComponentImage | MMM-PVMonitor.js:178-203 | the image is the name followed by its status: PV bucketed by share of the maximum, Load and Grid passed through, any other name without status |
| PvMonitor.BeautifyPower | MMM-PVMonitor.js:231-238 | a kW value below 1 is shown in W, times 1000; everything else is unchanged |
| PvMonitor.BeautifyPowerKeepsPower | MMM-PVMonitor.js:231-238 | the power shown equals the power given, kW is only shown from 1 on, and beautifying again changes nothing |
| PvMonitor.BeautifyEnergy | MMM-PVMonitor.js:240-247 | above 1000 Wh the energy is shown in kWh as a whole number of tenths within 50 Wh of the value; everything else is unchanged |
| PvMonitor.BeautifyEnergyIdempotent | MMM-PVMonitor.js:240-247 | beautifying an energy twice gives what beautifying once gives |
| PvMonitor.RaiseIfAtLeast | MMM-PVMonitor.js:109-113 | the mark becomes max(mark, PV power), and is restamped exactly when the power is at least the mark |
| PvMonitor.AtLeastAgreesWithStrict | MMM-PVMonitor.js:109 | the display's `>=` and the API wrapper's `<` give the same mark value; they differ only by the stamp, when the power equals the mark |
| PvMonitor.Receive | MMM-PVMonitor.js:96-175 | PVERROR and TESLAERROR set lastError, POWERFLOW, PRODUCTION and AUTARCHY clear it, the rest keep it; SITEDETAILS replaces the site; POWERFLOW sets the mark to RaiseIfAtLeast of the PV power (so at least that power) and stores the flow, request count, production span and time; every other note keeps the mark |
| PvMonitor.MarkCoversEveryPowerFlow | MMM-PVMonitor.js:103-116 | without SITEDETAILS in between, the mark ends at least at its start and at the PV power of every POWERFLOW received |
| PvMonitor.OthersKeepLastError | MMM-PVMonitor.js:99-166 | notifications that neither set nor clear the error (SITEDETAILS, TESLA, SPOTPRICES, STORAGEDATA, USER_PRESENCE) leave lastError as it was |
| PvMonitor.LastErrorFollowsLastReply | MMM-PVMonitor.js:103-174 | after any series of notifications, lastError is the error of the last notification that touches it, or none when that one was a reply, whatever follows it |
| PvMonitor.PvMonitor.constructor | MMM-PVMonitor.js:22-43 | the module starts with site "Unknown", peak power 1, mark 0.001 stamped now, no error and no data |
| PvMonitor.PvMonitor.SocketNotificationReceived | MMM-PVMonitor.js:96-175 | the fields after a notification are those of Receive on the fields before |

## Left out

- HTTP: every axios/request call, URL and query building, and the hard-coded date
  range of the spot-price feed. A fetch is its delivered `Result`. For the node
  helper's own requests, it is a `Response` with a status, a body and the parsed body.
- Files: reading and writing `maxPower.json` and `spotPricesCache.json` is
  `Persistence.FileStore`: missing, unparsable or parsed, and writable or not.
  JSON text is not modelled. The update timestamp goes through the cache as a number,
  where the source writes a `Date` that comes back as a string.
- Timers and asynchrony: `setInterval`, `setTimeout`, `Promise.all` and the order of
  callbacks. Timers are handles in a map, and a reply is handled by an explicit
  `Receive…` call.
- Throttling.Throttler.Execute: `Date.now()` is read once per call, through the
  `Clock`. The source reads it separately in each check.
- Throttling.Throttler.Execute: `func` and `throttleCallback` are not called. The
  outcome says which of them would run.
- The throttle-reason callback texts and `logThrottlingConditions` (Throttler.js:104-125)
  are console output only.
- The display's page: `getDom`, the chart (`buildChart`, `buildChartConfig`,
  `setChartData`), the table and summary templates, `getScripts` and `getStyles`. The
  data sets built on SPOTPRICES and STORAGEDATA only feed the chart; the model only
  stores the payloads.
- `this.file(...)`: the path prefix of an image is not modelled. Images are named
  relative to the module.
- Floating point and number rendering:
  - values are Dafny reals, and the text `beautify*` builds from a value is not modelled;
  - the autarchy ratio (SolaredgeAPI.js:230) and the miles-to-km conversion of the
    vehicle data are not modelled;
  - `Math.round` is exact on reals.
- Dates and time zones: `new Date()`, `getHours`, `getDate` and `toJSON` are inputs:
  the `Clock`, a `LocalDateTime`, and the date prefixes of `NodeHelper.Now`.
  `new Date(val.timeStamp)` in the storage records keeps the text.
- SolaredgeApi.FormatDateTimeReadsBack: only years of four digits are covered. Other
  years are still formatted, but are not read back.
- JsSemantics.ToLower: case folding covers ASCII letters only.
- The HTTP requests themselves are not modelled: `fetchSiteDetails` and
  `fetchCurrentPowerFlow` are modelled from the reply on, and `fetchProduction`,
  `fetchAutarchy` and `fetchDiagramData` of the API wrapper only through their pure
  parts.
- A CONFIG without a payload (a TypeError in the source) is not modelled. The payload
  is a `Config`, and a missing `siteId` or `apiKey` inside it is not modelled either.
- A 200 reply whose body parses but lacks `siteCurrentPowerFlow` or `energy`: the model
  treats it like a body that does not parse, and sends nothing.
- Members used by the display but defined nowhere in the code are not modelled:
  `currentPrice`, `minTodayPrice`, `maxTodayPrice`, `hasData`, `updateSpotPricesAsync`.
- The events the display sends that the helper does not handle (ENERGYCONFIG and the
  GET… requests) are not modelled. They reach the helper's `OtherNotification` case,
  which does nothing.
- The test scripts are only used as evidence for the call-count lemma.
