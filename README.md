# FoxESS energy management: battery planning core in Dafny

This project models the planning engine of the FoxESS energy management integration for Home Assistant and proves properties of it. The integration decides how much to force-charge a home battery during a nightly off-peak ("eco") window. It does this from the average house load and a solar forecast, then drives the inverter over the cloud service or over Modbus.

The model covers:

- **Eco window arithmetic** (`PeakPeriod`): containment, with the start excluded and the end included, across midnight; the next and last eco start; the next eco end; the window length.
- **Battery conversions** (`BatteryUtil`): kWh to percent and the capacity ceiling, over Python's round-half-even (`Rounding`).
- **The persisted schedule** (`ScheduleStore`): a class over a map keyed by the eco start instant, with field-wise upsert, lookup and fourteen-day housekeeping.
- **The battery model** (`Frame`, `ChargePlan`, `Simulation`, `BatteryModelling`):
  - the charge-needs computation and its schedule writes;
  - the minute-by-minute walk, as a left fold (`Simulation.Refresh`) and as the in-place loop over an array of rows that is proved equal to it;
  - the grid-metadata pass, the dawn and depletion queries and the peak grid sums.
- **The battery controller** (`BatteryControl`): the refresh guard, the strict-interval schedule filter and the boost/full requests.
- **The charge orchestrator** (`ChargeOrchestration`): a class whose handlers update the charge state. Every inverter call is appended to a command log. It has a two-point hysteresis around the target, a special case for a 100% target, and a step-down of the charge current above 90%.
- **Load and forecast shaping** (`AverageLoad`, `ForecastData`): sample filtering and padding, auxiliary-load subtraction, the daily average, the per-site forecast join, and the daily totals with their missing-data errors.
- **Forecast refresh scheduling** (`ForecastControl`): the call allowance split into evenly spaced refresh times between 06:00 and 18:00, listener clearing, the cache-age rule and the count reset.
- **Energy integration** (`EnergyIntegration`): a left-rectangle sum in which gaps over an hour count for nothing.
- **Inverter payloads** (`ChargeWindows`, `FoxModbus`, `FoxCloud`): the Modbus register layout and time code, and the cloud query builders with their cached device lookup. In both, a window that crosses midnight is split into start to 23:59 and 00:01 to stop.

Conventions used throughout:

- Instants are whole seconds, with no time zone or daylight-saving shift. Times of day are `HourMinute` values.
- The clock is an explicit `now` argument.
- Failures are a `Result` with two kinds of error:
  - `NoData` is the integration's `NoDataError`;
  - `Unexpected` is any other exception.
- Results that come from outside are arguments: host state, service responses, and pandas' resampling and interpolation.

## Model

| member | source | states |
|---|---|---|
| Rounding.HalfEvenClose | custom_components/foxess_em/battery/battery_util.py:20 | rounding half to even moves a value by at most one half |
| Rounding.HalfEvenOfInt | custom_components/foxess_em/battery/battery_util.py:20 | an integer rounds to itself |
| Rounding.HalfEvenMonotone | custom_components/foxess_em/battery/battery_util.py:20 | rounding never reverses the order of two values |
| Rounding.Round2Close | custom_components/foxess_em/battery/battery_util.py:24-29 | `round(x, 2)` is within 0.005 of x |
| Rounding.Round0Close | custom_components/foxess_em/battery/battery_util.py:20 | `round(x, 0)` is within 0.5 of x |
| Rounding.Round2Monotone | custom_components/foxess_em/battery/battery_util.py:24-29 | `round(x, 2)` is monotone |
| Rounding.Round0Monotone | custom_components/foxess_em/battery/battery_util.py:20 | `round(x, 0)` is monotone |
| Rounding.HalfEven | custom_components/foxess_em/battery/battery_util.py:20 | round half to even; its properties are HalfEvenClose, HalfEvenOfInt and HalfEvenMonotone |
| Rounding.Round2 | custom_components/foxess_em/battery/battery_util.py:24-29 | `round(x, 2)`; its properties are Round2Close, Round2Monotone, Round2Idempotent, Round2OfZero and Round2NonNegative |
| Rounding.Round0 | custom_components/foxess_em/battery/battery_util.py:20 | `round(x, 0)`; its properties are Round0Close and Round0Monotone |
| Rounding.Round2Idempotent | custom_components/foxess_em/battery/battery_util.py:24-29 | rounding an already rounded value changes nothing |
| Rounding.Round2OfZero | custom_components/foxess_em/battery/battery_util.py:24-29 | zero rounds to zero |
| Rounding.Round2NonNegative | custom_components/foxess_em/battery/battery_util.py:24-29 | a non-negative value rounds to a non-negative value |
| Common.Replace | custom_components/foxess_em/util/peak_period_util.py:23-28 | `replace(hour=, minute=, second=0)`: the same calendar day, at the given time of day |
| PeakPeriod.NextEcoStart | custom_components/foxess_em/util/peak_period_util.py:20-32 | the result falls on the eco start time of day, on a whole minute, within one day from now (now included) |
| PeakPeriod.LastEcoStart | custom_components/foxess_em/util/peak_period_util.py:34-45 | the result falls on the eco start time of day, on a whole minute, no later than the given instant and less than a day before it |
| PeakPeriod.NextEcoEnd | custom_components/foxess_em/util/peak_period_util.py:47-58 | the result falls on the eco end time of day, on a whole minute, no earlier than the given instant and less than a day after it |
| PeakPeriod.TimeWindow | custom_components/foxess_em/util/peak_period_util.py:67-76 | the window's length lies in [0, 24 h) and is zero exactly when start equals end |
| PeakPeriod.InPeakSameDay | custom_components/foxess_em/util/peak_period_util.py:60-63 | for start <= end a time is in peak iff start < t <= end |
| PeakPeriod.InBetween | custom_components/foxess_em/util/peak_period_util.py:60-65 | the containment test; its meaning is stated by InPeakSameDay, InPeakOverMidnight and InPeakEmptyWindow |
| PeakPeriod.InPeak | custom_components/foxess_em/util/peak_period_util.py:16-18 | the eco window test on a time of day; characterised by InPeakIffWithinLastWindow |
| PeakPeriod.InPeakOverMidnight | custom_components/foxess_em/util/peak_period_util.py:64-65 | for start > end a time is in peak iff t > start or t <= end |
| PeakPeriod.InPeakEmptyWindow | custom_components/foxess_em/util/peak_period_util.py:62-63 | a window whose start equals its end contains no time |
| PeakPeriod.InPeakIffWithinLastWindow | custom_components/foxess_em/util/peak_period_util.py:16-76 | an instant is in peak iff it lies after the last eco start and no later than that start plus the window length |
| PeakPeriod.NextIsLastPlusDay | custom_components/foxess_em/util/peak_period_util.py:20-45 | the next eco start is the instant itself when it is on an eco start, else the last eco start plus one day |
| BatteryUtil.ChargeToPerc | custom_components/foxess_em/battery/battery_util.py:16-20 | the percentage never exceeds 100 |
| BatteryUtil.CeilingChargeTotal | custom_components/foxess_em/battery/battery_util.py:22-29 | the clamped total never exceeds the rounded usable capacity |
| BatteryUtil.ChargeToPercOfEmpty | custom_components/foxess_em/battery/battery_util.py:18-20 | zero charge reads as min(100, round(min_soc * 100)) |
| BatteryUtil.ChargeToPercMonotone | custom_components/foxess_em/battery/battery_util.py:18-20 | more charge never reads as a lower percentage |
| BatteryUtil.ChargeToPercBounds | custom_components/foxess_em/battery/battery_util.py:18-20 | a charge within the usable capacity reads between the reserve percentage and 100 |
| BatteryUtil.CeilingMonotone | custom_components/foxess_em/battery/battery_util.py:22-29 | the clamp is monotone |
| BatteryUtil.CeilingIdempotent | custom_components/foxess_em/battery/battery_util.py:22-29 | clamping twice is clamping once |
| BatteryUtil.CeilingBelowCapacity | custom_components/foxess_em/battery/battery_util.py:24-29 | below the rounded usable capacity the clamp is `round(x, 2)` |
| BatteryUtil.CeilingNonNegative | custom_components/foxess_em/battery/battery_util.py:22-29 | a non-negative request stays non-negative when the battery is valid |
| BatteryUtil.AvailableNonNegative | custom_components/foxess_em/battery/battery_util.py:24-29 | a valid pack has non-negative usable capacity above its reserve, and the clamp bound is its rounding |
| BatteryUtil.Battery.Available | custom_components/foxess_em/battery/battery_util.py:24-27 | usable capacity above the reserve; non-negative by AvailableNonNegative |
| BatteryUtil.RoundedAvailable | custom_components/foxess_em/battery/battery_util.py:24-27 | the usable capacity rounded to 0.01, the clamp bound; related to Available by AvailableNonNegative |
| ScheduleStore.Upserted | custom_components/foxess_em/battery/schedule.py:48-56 | upsert keeps every key and adds the index |
| ScheduleStore.Housekept | custom_components/foxess_em/battery/schedule.py:71-78 | housekeeping never adds a key |
| ScheduleStore.UpsertMergesFields | custom_components/foxess_em/battery/schedule.py:53-56 | the given fields win; on an existing key every other field is kept; on a new key the params are the entry |
| ScheduleStore.UpsertFramesOtherKeys | custom_components/foxess_em/battery/schedule.py:48-56 | every other key keeps its entry |
| ScheduleStore.UpsertTwiceKeepsBoth | custom_components/foxess_em/battery/schedule.py:53-54 | two upserts of different fields to one key keep both |
| ScheduleStore.HousekeepingExact | custom_components/foxess_em/battery/schedule.py:71-78 | a key survives iff it is at or after now - 14 days; surviving entries are unchanged |
| ScheduleStore.HousekeepingIdempotent | custom_components/foxess_em/battery/schedule.py:71-78 | a second housekeeping at the same clock removes nothing |
| ScheduleStore.Schedule.constructor | custom_components/foxess_em/battery/schedule.py:19-24 | the schedule starts empty |
| ScheduleStore.Schedule.Load | custom_components/foxess_em/battery/schedule.py:37-46 | the schedule becomes the persisted map, or empty when there is none, after housekeeping |
| ScheduleStore.Schedule.Upsert | custom_components/foxess_em/battery/schedule.py:48-56 | the new schedule is the old one with the params merged under the index |
| ScheduleStore.Schedule.Get | custom_components/foxess_em/battery/schedule.py:62-69 | the stored entry when the key is present, else None |
| ScheduleStore.Schedule.GetAll | custom_components/foxess_em/battery/schedule.py:58-60 | the whole stored map, as Load, Upsert and Housekeeping leave it |
| ScheduleStore.Schedule.Housekeeping | custom_components/foxess_em/battery/schedule.py:71-78 | the loop leaves exactly the entries housekeeping keeps |
| Frame.Fresh | custom_components/foxess_em/battery/battery_model.py:321-336 | the merged frame becomes a table of the same length, row i holding minute i with no battery or grid value yet |
| Frame.GridSumSign | custom_components/foxess_em/battery/battery_model.py:209-210 | import sums are never positive and export sums never negative |
| Frame.SumBetween | custom_components/foxess_em/battery/battery_model.py:151-159 | the total of a column over rows strictly between two instants; SumBetweenIgnoresSimulation shows the simulated columns do not affect it |
| Frame.GridSum | custom_components/foxess_em/battery/battery_model.py:256-266 | the total of the import or export grid values strictly between two instants; its sign is stated by GridSumSign, its empty case by GridSumEmpty |
| Frame.GridSumEmpty | custom_components/foxess_em/battery/battery_model.py:263-264 | with no qualifying grid row the sum is zero |
| Frame.SumBetweenIgnoresSimulation | custom_components/foxess_em/battery/battery_model.py:151-158 | window sums read only load, solar and delta, so writing battery and grid values leaves them unchanged |
| ChargePlan.FirstDawn | custom_components/foxess_em/battery/battery_model.py:350-359 | the index of the first row of the day where solar exceeds a non-zero load, or the length when there is none |
| ChargePlan.DawnTime | custom_components/foxess_em/battery/battery_model.py:350-359 | the period start of the first dawn row of that date, or noon of that date when there is none |
| ChargePlan.DawnChargeNeeds | custom_components/foxess_em/battery/battery_model.py:361-363 | the need is non-negative and within 0.005 of max(0, dawn load + dawn buffer) |
| ChargePlan.DawnLoad | custom_components/foxess_em/battery/battery_model.py:338-348 | non-negative and within 0.005 of the magnitude of the net energy drawn between the eco end and dawn |
| ChargePlan.DayChargeNeeds | custom_components/foxess_em/battery/battery_model.py:365-367 | the need is non-negative and within 0.005 of max(0, load + day buffer - forecast) |
| ChargePlan.GetBoost | custom_components/foxess_em/battery/battery_model.py:313-319 | the stored field, or 0 when the entry or the field is absent |
| ChargePlan.TotalAdditionalCharge | custom_components/foxess_em/battery/battery_model.py:306-311 | the larger of the boost and full-charge requests |
| ChargePlan.ChargeTotalsWindow | custom_components/foxess_em/battery/battery_model.py:141-149 | the plan's eco start is on the period's day at the start time, and its eco end is the next end time, less than a day later |
| ChargePlan.ChargeTotals | custom_components/foxess_em/battery/battery_model.py:133-189 | the plan of `_charge_totals`; its window, bounds, the need it serves and its response to boost and stored energy are ChargeTotalsWindow, ChargeTotalsBounds, ChargeTotalsServeLargerNeed, BoostNeverLowersTarget, NoChargeWhenAboveTarget and MoreStoredNeedsLessCharge |
| ChargePlan.TotalsEntry | custom_components/foxess_em/battery/battery_model.py:174-187 | the fields stored under the eco start; what it stores is TotalsEntryStoresTarget |
| ChargePlan.ChargeTotalsBounds | custom_components/foxess_em/battery/battery_model.py:159-172 | dawn and day needs are non-negative; the total lies in [0, rounded usable capacity]; the target never exceeds that capacity and is non-negative without a boost |
| ChargePlan.ChargeTotalsServeLargerNeed | custom_components/foxess_em/battery/battery_model.py:162-167 | without a boost the target is the clamped larger need, at least each need clamped |
| ChargePlan.BoostNeverLowersTarget | custom_components/foxess_em/battery/battery_model.py:165-171 | a non-negative boost never lowers the target |
| ChargePlan.NoChargeWhenAboveTarget | custom_components/foxess_em/battery/battery_model.py:172 | a battery already at the target is charged nothing |
| ChargePlan.NoShortfallNoCharge | custom_components/foxess_em/battery/battery_model.py:172 | no shortfall between target and stored energy clamps to a zero charge |
| ChargePlan.MoreStoredNeedsLessCharge | custom_components/foxess_em/battery/battery_model.py:172 | without a boost more stored energy never needs a larger total |
| ChargePlan.TotalsEntryStoresTarget | custom_components/foxess_em/battery/battery_model.py:174-187 | the upserted entry holds the target under `min_soc` and the total under `total`, and no request field |
| Simulation.CapacityRemaining | custom_components/foxess_em/battery/battery_model.py:284-295 | NoDataError exactly for a missing, unknown or unavailable sensor; an unexpected error for a non-integer state; otherwise soc/100 * capacity - min_soc * capacity |
| Simulation.CapacityRemainingBounds | custom_components/foxess_em/battery/battery_model.py:284-295 | a reading between the reserve and 100% gives an energy between zero and the usable capacity |
| Simulation.Step | custom_components/foxess_em/battery/battery_model.py:97-121 | one row of the walk keeps the table's length |
| Simulation.Run | custom_components/foxess_em/battery/battery_model.py:97-121 | the walk keeps the table's length |
| Simulation.Metadata | custom_components/foxess_em/battery/battery_model.py:191-215 | the stored import and export are both present and non-negative; it is only applied when the table has a grid column, since Walk fails first otherwise |
| Simulation.MetaRun | custom_components/foxess_em/battery/battery_model.py:123-128 | the metadata pass keeps every schedule key |
| Simulation.FirstAfter | custom_components/foxess_em/battery/battery_model.py:84 | the index of the first row after now; every row before it is at or before now |
| Simulation.History | custom_components/foxess_em/battery/battery_model.py:297-302 | the kept rows are exactly the model's rows with now - 3 days < period_start <= now |
| Simulation.StepFollowsDelta | custom_components/foxess_em/battery/battery_model.py:108-121 | away from the eco start, outside the window or inside it at or above the hold level, the battery is the delta step clamped to [0, usable capacity]; the grid records the whole delta when the battery is empty or full and zero otherwise |
| Simulation.StepInsideWindow | custom_components/foxess_em/battery/battery_model.py:108-110 | inside the window a battery below the hold level is raised to it, grid untouched; with no hold level the walk stops |
| Simulation.StepAtEcoStart | custom_components/foxess_em/battery/battery_model.py:101-107 | at the eco start the battery gains the plan's total (never decreasing), the hold level becomes the new target and the plan is upserted |
| Simulation.StepFrame | custom_components/foxess_em/battery/battery_model.py:97-121 | a step writes only row k's battery and grid and never removes a schedule key |
| Simulation.RunStaysHalted | custom_components/foxess_em/battery/battery_model.py:97-121 | once stopped, the walk stays stopped and changes nothing |
| Simulation.RunFrame | custom_components/foxess_em/battery/battery_model.py:97-121 | the walk writes only visited rows, only their battery and grid, and never removes a schedule key |
| Simulation.RunWritesBattery | custom_components/foxess_em/battery/battery_model.py:121 | a walk that completes writes a battery value into every visited row |
| Simulation.RunMinSocOnceSet | custom_components/foxess_em/battery/battery_model.py:89-110 | once a hold level is set it stays set, and the walk never stops |
| Simulation.MetaRunImportExport | custom_components/foxess_em/battery/battery_model.py:123-128 | every entry the metadata pass creates holds non-negative import and export |
| Simulation.WalkSuccess | custom_components/foxess_em/battery/battery_model.py:97-131 | a completed walk leaves the model ready and ending with the frame's minutes, and with a grid column whenever a future eco start was reached |
| Simulation.WalkFutureSorted | custom_components/foxess_em/battery/battery_model.py:82-130 | for a frame in time order, the completed walk's model has its rows after now in time order, since the kept history holds only rows at or before now |
| Simulation.InitialHold | custom_components/foxess_em/battery/battery_model.py:84-95 | the hold level before the walk: the stored target of the last eco start, or a fresh plan inside the window; used by RefreshSuccess and RefreshFailure |
| Simulation.Walk | custom_components/foxess_em/battery/battery_model.py:97-131 | the walk and metadata pass and the new model; a walk that stops, or that reaches a future eco start without writing any grid value (the `peak["grid"]` lookup raises), fails and keeps the walk's plans; characterised by WalkSuccess and WalkFailure |
| Simulation.Refresh | custom_components/foxess_em/battery/battery_model.py:73-131 | `refresh_battery_model` as a function; characterised by RefreshSuccess, RefreshFailure, RefreshKeepsRequests and RefreshKeysKept |
| Simulation.AppendKeepsFrame | custom_components/foxess_em/battery/battery_model.py:297-304 | history followed by the walked frame ends with the frame |
| Simulation.WalkFailure | custom_components/foxess_em/battery/battery_model.py:97-131 | a stopped walk leaves model and ready flag unchanged and keeps every schedule key |
| Simulation.RefreshSuccess | custom_components/foxess_em/battery/battery_model.py:73-131 | a successful refresh leaves the model ready and ending with the whole merged frame, with a grid column when a future eco start was reached, and, for a frame in time order, with its rows after now in time order |
| Simulation.RefreshFailure | custom_components/foxess_em/battery/battery_model.py:73-131 | a failed refresh keeps the ready flag, keeps the previous model (or the merged frame on the first call), keeps every schedule key, and is NoDataError exactly when the battery sensor has no usable state |
| Simulation.UpsertKeepsField | custom_components/foxess_em/battery/battery_model.py:174-187 | an upsert without field f keeps f of every entry |
| Simulation.RunKeepsRequests | custom_components/foxess_em/battery/battery_model.py:97-121 | the walk never changes a stored boost or full request |
| Simulation.MetaRunKeepsRequests | custom_components/foxess_em/battery/battery_model.py:123-128 | the metadata pass never changes a stored boost or full request |
| Simulation.WalkKeepsRequests | custom_components/foxess_em/battery/battery_model.py:97-131 | both passes keep every stored boost or full request |
| Simulation.RefreshKeepsRequests | custom_components/foxess_em/battery/battery_model.py:73-131 | a refresh never drops or changes a stored boost or full request |
| Simulation.RefreshKeysKept | custom_components/foxess_em/battery/battery_model.py:73-131 | a refresh never removes a schedule entry |
| BatteryModelling.FirstDepleted | custom_components/foxess_em/battery/battery_model.py:241-250 | the index of the first row after now with battery exactly 0, or the length |
| BatteryModelling.BatteryModel.constructor | custom_components/foxess_em/battery/battery_model.py:22-46 | no model and not ready |
| BatteryModelling.BatteryModel.Ready | custom_components/foxess_em/battery/battery_model.py:48-50 | the ready flag |
| BatteryModelling.BatteryModel.ChargeTotalsUpsert | custom_components/foxess_em/battery/battery_model.py:133-189 | returns the plan's total and target and upserts the plan under its eco start |
| BatteryModelling.BatteryModel.AddMetadata | custom_components/foxess_em/battery/battery_model.py:191-215 | upserts import and export under the eco start |
| BatteryModelling.BatteryModel.RefreshBatteryModel | custom_components/foxess_em/battery/battery_model.py:73-131 | the new status, model, ready flag and schedule are exactly Simulation.Refresh of the old ones |
| BatteryModelling.BatteryModel.StartingHold | custom_components/foxess_em/battery/battery_model.py:89-95 | the hold level and schedule are exactly those of InitialHold: the stored target, a target computed and stored inside the window, or none; a stored entry without one fails and leaves the schedule alone |
| BatteryModelling.BatteryModel.WalkFrame | custom_components/foxess_em/battery/battery_model.py:97-131 | the two loops and the new model leave exactly the status, model, ready flag and schedule of Simulation.Walk |
| BatteryModelling.BatteryModel.SimulateRows | custom_components/foxess_em/battery/battery_model.py:97-121 | the in-place loop leaves exactly the state of the walk Run |
| BatteryModelling.BatteryModel.SimulateRow | custom_components/foxess_em/battery/battery_model.py:98-121 | one in-place row update equals Step |
| BatteryModelling.BatteryModel.MetadataPass | custom_components/foxess_em/battery/battery_model.py:123-128 | fails with `Unexpected` and leaves the schedule alone exactly when the table has no grid column and an eco start lies ahead; otherwise the loop leaves the schedule of MetaRun |
| BatteryModelling.BatteryModel.BatteryDepletedTime | custom_components/foxess_em/battery/battery_model.py:234-250 | sensor errors propagate; none when already empty; a table without a battery column fails; otherwise the start of the first future row drained to zero, or of the last row when there is none |
| BatteryModelling.BatteryModel.PeakGridImport | custom_components/foxess_em/battery/battery_model.py:252-266 | fails exactly without a model or a grid column; otherwise non-negative and within 0.005 of the magnitude of the import sum up to the next eco start |
| BatteryModelling.BatteryModel.PeakGridExport | custom_components/foxess_em/battery/battery_model.py:268-282 | fails exactly without a model or a grid column; otherwise non-negative and within 0.005 of the export sum up to the next eco start |
| BatteryModelling.BatteryModel.TodaysDawnTime | custom_components/foxess_em/battery/battery_model.py:229-232 | today's dawn time of the model |
| BatteryModelling.BatteryModel.NextDawnTime | custom_components/foxess_em/battery/battery_model.py:217-227 | today's dawn while it is still to come, else tomorrow's |
| BatteryModelling.NextDawnFallsBackToNoon | custom_components/foxess_em/battery/battery_model.py:217-227 | with no dawn row on either day the next dawn is noon of today or of tomorrow |
| BatteryModelling.DepletedTimeIsEarliest | custom_components/foxess_em/battery/battery_model.py:234-250 | on a table whose rows after an earlier instant are in time order (as RefreshSuccess shows every refresh of a sorted frame leaves it), the depleted time is the earliest future instant drained to zero, after now; with none it is the last row's instant |
| BatteryControl.ControllerRefresh | custom_components/foxess_em/battery/battery_controller.py:81-100 | nothing changes unless both inputs are ready and the frame is available; listeners are notified and the timestamp set exactly when the model refresh succeeds, which leaves the model ready; otherwise timestamp, notifications and ready flag stay; no schedule key is lost |
| BatteryControl.ScheduleBetween | custom_components/foxess_em/battery/battery_controller.py:110-121 | the whole schedule when a bound is missing, else exactly the entries with start < key < end, each unchanged |
| BatteryControl.FullRequested | custom_components/foxess_em/battery/battery_controller.py:197-208 | true exactly when a non-zero full-charge request is stored under the key |
| BatteryControl.SetFullThenGetFull | custom_components/foxess_em/battery/battery_controller.py:191-208 | after set_full and its refresh, get_full reads back the status asked for |
| BatteryControl.FullValue | custom_components/foxess_em/battery/battery_controller.py:191-195 | the stored full-charge request: the capacity or zero; read back by SetFullThenGetFull |
| BatteryControl.SetBoostThenRefresh | custom_components/foxess_em/battery/battery_controller.py:180-189 | after set_boost and its refresh, the stored boost reads back and the next plan's additional charge is at least that boost |
| BatteryControl.BatteryController.constructor | custom_components/foxess_em/battery/battery_controller.py:40-60 | shares the model's schedule; no last update and nothing notified |
| BatteryControl.BatteryController.Refresh | custom_components/foxess_em/battery/battery_controller.py:81-100 | the new state is ControllerRefresh of the old one |
| BatteryControl.BatteryController.GetSchedule | custom_components/foxess_em/battery/battery_controller.py:110-121 | a key is returned iff it is stored and, when both bounds are given, strictly between them |
| BatteryControl.BatteryController.SetBoost | custom_components/foxess_em/battery/battery_controller.py:180-185 | the new state is the refresh of the old state with the boost upserted under the next eco start |
| BatteryControl.BatteryController.SetFull | custom_components/foxess_em/battery/battery_controller.py:191-195 | the new state is the refresh of the old state with the capacity (or 0) upserted as the full request under the next eco start |
| BatteryControl.BatteryController.GetBoostValue | custom_components/foxess_em/battery/battery_controller.py:187-208 | the stored boost for the next eco start, 0 when absent |
| BatteryControl.BatteryController.GetFull | custom_components/foxess_em/battery/battery_controller.py:197-200 | false exactly when the full request is absent or 0 |
| BatteryControl.BatteryController.ScheduleInfo | custom_components/foxess_em/battery/battery_controller.py:152-154 | the entry stored for the next eco start, if any |
| BatteryControl.BatteryController.PlanField | custom_components/foxess_em/battery/battery_controller.py:131-145 | a field of the next plan; a missing plan or field fails |
| BatteryControl.BatteryController.StateAtEcoStart | custom_components/foxess_em/battery/battery_controller.py:127-129 | the stored battery level within 0.005, failing exactly when the field is missing |
| BatteryControl.BatteryController.ChargeTargetPerc | custom_components/foxess_em/battery/battery_controller.py:106-108 | charge_to_perc of the next plan's min_soc, at most 100, failing exactly when it is missing |
| ChargeOrchestration.SetupTime | custom_components/foxess_em/charge/charge_service.py:64-68 | a valid wall-clock time exactly five minutes before the eco start, wrapping over midnight |
| ChargeOrchestration.ChargeRate | custom_components/foxess_em/charge/charge_service.py:113-119 | fails exactly on a division by zero (zero voltage, or a window of exactly 30 minutes); otherwise within 0.005 of (required / volts * 1000) / hours |
| ChargeOrchestration.StepDownCurrent | custom_components/foxess_em/charge/charge_service.py:171-178 | at least 2 A; one of 2 A, the target current or the stepped value; never above a target current of at least 2 A |
| ChargeOrchestration.ReachingTargetStops | custom_components/foxess_em/charge/charge_service.py:180-183 | reaching the target while charging stops the charge and issues a stop, unless the target is 100% |
| ChargeOrchestration.FallingBelowBandRestarts | custom_components/foxess_em/charge/charge_service.py:184-188 | falling below target - 2 while stopped restarts the charge |
| ChargeOrchestration.HysteresisBand | custom_components/foxess_em/charge/charge_service.py:180-188 | in [target - 2, target) the charge flag is unchanged and nothing is sent |
| ChargeOrchestration.CommandsMatchState | custom_components/foxess_em/charge/charge_service.py:180-188 | a stop is sent iff the charge goes from running to stopped, a start iff from stopped to running, nothing iff the flag is unchanged |
| ChargeOrchestration.NextActive | custom_components/foxess_em/charge/charge_service.py:180-188 | the charge flag after a level change; its rule is stated by ReachingTargetStops, FallingBelowBandRestarts and HysteresisBand |
| ChargeOrchestration.HysteresisCommands | custom_components/foxess_em/charge/charge_service.py:180-188 | the stop or start command of a level change; matched to the flag by CommandsMatchState |
| ChargeOrchestration.ChargeService.constructor | custom_components/foxess_em/charge/charge_service.py:29-62 | the user current is also the target current; no charge active; target, required charge, profile and disable all off; no listeners; no commands |
| ChargeOrchestration.ChargeService.AddListeners | custom_components/foxess_em/charge/charge_service.py:64-99 | three triggers (setup, start, end) at the setup time, the eco start and the eco end are kept for unloading; nothing is sent |
| ChargeOrchestration.ChargeService.StartForceCharge | custom_components/foxess_em/charge/charge_service.py:140-145 | the charge flag is set and the start command sent; nothing else changes |
| ChargeOrchestration.ChargeService.StopForceChargeNow | custom_components/foxess_em/charge/charge_service.py:147-152 | the charge flag is cleared and the stop command sent; nothing else changes |
| ChargeOrchestration.ChargeService.EcoStartSetup | custom_components/foxess_em/charge/charge_service.py:101-124 | errors from the plan propagate before any command, changing no setting; otherwise the plan is stored, the force charge started and min SoC reset; the target current is the user current unless a charge is required on the custom profile, where it is min(user, rate), never above the user current; the rate's division by zero aborts before the current is sent; the profile, disable flag and listeners stay |
| ChargeOrchestration.ChargeService.EcoStart | custom_components/foxess_em/charge/charge_service.py:126-138 | the hold level is sent, the level listener registered, and the force charge stopped exactly when nothing is to be charged; the charge settings and disable flag stay |
| ChargeOrchestration.ChargeService.EcoEnd | custom_components/foxess_em/charge/charge_service.py:154-205 | fails, changing nothing, when no listener was set; otherwise removes the listener from the unload list, re-enables the force charge, restores the user current and releases the hold; the charge settings, disable flag and listener handle stay either way |
| ChargeOrchestration.ChargeService.BatterySocChange | custom_components/foxess_em/charge/charge_service.py:166-188 | an unparsable state fails and sends nothing; otherwise the charge flag moves by the hysteresis rule and the commands are the step-down current (if any) then the hysteresis commands; the charge settings, disable flag and listeners stay |
| ChargeOrchestration.ChargeService.SocChangeCommands | custom_components/foxess_em/charge/charge_service.py:171-188 | above 90% on the custom profile the first command sets a current of at least 2 A; otherwise only the hysteresis commands |
| ChargeOrchestration.ChargeService.Unload | custom_components/foxess_em/common/unload_controller.py:14-19 | the unload list is emptied; nothing is sent; the charge settings, flags and handle counter stay |
| ChargeOrchestration.ChargeService.SetDisable | custom_components/foxess_em/charge/charge_service.py:207-220 | disabling unloads and sends a stop; enabling registers the three triggers and sends a start; the charge settings, charge flag and level listener stay |
| ChargeOrchestration.ChargeService.SetCustomChargeProfile | custom_components/foxess_em/charge/charge_service.py:226-228 | only the custom profile flag changes, to the given status |
| AverageLoad.Kept | custom_components/foxess_em/average/average_model.py:78-85 | fails with an unexpected error exactly when some state is text that is not a number; otherwise at most one sample per change, each a recorded reading |
| AverageLoad.AsSamples | custom_components/foxess_em/average/average_model.py:78-85 | one sample per reading, in order, at its change time and value |
| AverageLoad.KeptAllReadings | custom_components/foxess_em/average/average_model.py:78-85 | when every state is a reading, every one becomes a sample, in order |
| AverageLoad.KeptIgnoresDropped | custom_components/foxess_em/average/average_model.py:84 | an empty, unknown or unavailable state adds no sample |
| AverageLoad.PaddedShape | custom_components/foxess_em/average/average_model.py:87-98 | the padded list is one longer than the kept samples, starts with (from, 0) by overwriting the first kept sample, keeps the rest, and ends at to with the last value (0 when only one sample was kept) |
| AverageLoad.WindowEnd | custom_components/foxess_em/average/average_model.py:61-64 | the window ends now, or at local midnight today for a whole-day history |
| AverageLoad.UpdatedValues | custom_components/foxess_em/average/average_model.py:57-100 | fails exactly when the recorder has no history for the sensor, a state is not a number, or no sample is kept; otherwise at least two samples from (to - period, 0) to a final sample at to |
| AverageLoad.HistorySensor.constructor | custom_components/foxess_em/average/tracked_sensor.py:1-23 | the history starts without values |
| AverageLoad.HistorySensor.Update | custom_components/foxess_em/average/average_model.py:57-100 | succeeds exactly when UpdatedValues does, storing its samples; a failure keeps the old values |
| AverageLoad.FindSensor | custom_components/foxess_em/average/average_model.py:110 | the position of the sensor tracked under the key, None exactly when no sensor has it |
| AverageLoad.Scaled | custom_components/foxess_em/average/average_model.py:126-127 | each minute's load is its mean over 60, at the same minute |
| AverageLoad.AuxScaled | custom_components/foxess_em/average/average_model.py:114-115 | each auxiliary minute's load is its mean over 60 and then over 1000 |
| AverageLoad.Lookup | custom_components/foxess_em/average/average_model.py:116 | the aligned value is some row's value at that minute, and NaN when no row has that minute |
| AverageLoad.Subtract | custom_components/foxess_em/average/average_model.py:116 | the house table's minutes are kept, each minus the auxiliary value at that minute (NaN-propagating) |
| AverageLoad.NetLoad | custom_components/foxess_em/average/average_model.py:108-118 | the net load keeps the house table's minutes; each is a number iff the house load and every auxiliary load are, and then equals the house load minus the auxiliary total |
| AverageLoad.SumLoadNonNegative | custom_components/foxess_em/average/average_model.py:140 | a column without negative loads sums to a non-negative total |
| AverageLoad.SumLoadAppend | custom_components/foxess_em/average/average_model.py:140 | the total of a concatenation is the sum of the totals |
| AverageLoad.AverageAll | custom_components/foxess_em/average/average_model.py:134-140 | fails exactly before a refresh, or for a period under one day, which the program never uses (see Left out); otherwise within 0.005 of the total over the whole days of the period |
| AverageLoad.AverageAllNonNegative | custom_components/foxess_em/average/average_model.py:134-140 | with no negative loads the average is never negative |
| AverageLoad.ValuesOf | custom_components/foxess_em/average/average_model.py:113-114 | the values of each auxiliary history, in order |
| AverageLoad.AuxTables | custom_components/foxess_em/average/average_model.py:113-115 | each auxiliary history's scaled table, in order |
| AverageLoad.AverageModel.constructor | custom_components/foxess_em/average/average_model.py:22-34 | no table and not ready |
| AverageLoad.AverageModel.UpdateHistory | custom_components/foxess_em/average/average_model.py:49-55 | succeeds iff every history of the sensor updates; on success each holds its update |
| AverageLoad.AverageModel.HouseLoadResample | custom_components/foxess_em/average/average_model.py:108-118 | the table is the scaled house load with each scaled auxiliary load deducted in turn |
| AverageLoad.AverageModel.UpdateAll | custom_components/foxess_em/average/average_model.py:42-44 | succeeds iff every history of every sensor updates; on success each holds its update |
| AverageLoad.AverageModel.Refresh | custom_components/foxess_em/average/average_model.py:40-47 | succeeds iff every history updates and the house load is tracked; then the table is the net house load and the model ready; a failure keeps table and ready flag |
| AverageLoad.AverageModel.ResampleData | custom_components/foxess_em/average/average_model.py:102-106 | NoDataError exactly while the table is empty; otherwise the table |
| AverageLoad.AverageModel.AverageAllHouseLoad | custom_components/foxess_em/average/average_model.py:134-140 | an untracked house load fails; otherwise AverageAll over the table and the house-load period |
| ForecastData.GroupedSums | custom_components/foxess_em/forecast/forecast_model.py:105 | the groups are exactly the period starts that occur, each holding the total of the estimates recorded for it |
| ForecastData.Grouped | custom_components/foxess_em/forecast/forecast_model.py:103-107 | the per-period sums of the estimates; stated by GroupedSums |
| ForecastData.ScaledForecast | custom_components/foxess_em/forecast/forecast_model.py:110-115 | one row per minute: the estimate over 60, watts 1000 times that, dated by its minute |
| ForecastData.Resample | custom_components/foxess_em/forecast/forecast_model.py:99-119 | fails exactly on an empty record list; otherwise the grouped totals, spread over minutes and scaled |
| ForecastData.Joined | custom_components/foxess_em/forecast/forecast_model.py:40-42 | the joined records number the total of the sites' records |
| ForecastData.JoinedAppend | custom_components/foxess_em/forecast/forecast_model.py:40-42 | joining splits at any site, earlier sites' records first |
| ForecastData.JoinedSnoc | custom_components/foxess_em/forecast/forecast_model.py:40-42 | one more site adds its records at the end of the join |
| ForecastData.FetchStep | custom_components/foxess_em/forecast/forecast_model.py:40-42 | one more successful fetch appends exactly its records to the join of the earlier ones |
| ForecastData.RemainingWithinDay | custom_components/foxess_em/forecast/forecast_model.py:84-93 | without negative estimates the rest of today lies between 0 and the whole of today |
| ForecastData.RemainingAtMidnight | custom_components/foxess_em/forecast/forecast_model.py:84-93 | at midnight the rest of today is all of today |
| ForecastData.ForecastModel.constructor | custom_components/foxess_em/forecast/forecast_model.py:17-22 | no records, no table, not ready |
| ForecastData.ForecastModel.Load | custom_components/foxess_em/forecast/forecast_model.py:28-33 | the records are stored even when resampling fails; the table and the ready flag are set exactly on success, and a failure is the resample's error |
| ForecastData.ForecastModel.Refresh | custom_components/foxess_em/forecast/forecast_model.py:35-46 | no site list changes nothing; otherwise the records are the sites' records in site order up to the first failed fetch, whose error is returned; with all fetched, success iff there are records, and then the table is their resample and the model ready |
| ForecastData.ForecastModel.RawData | custom_components/foxess_em/forecast/forecast_model.py:56-60 | NoDataError exactly while there are no records; otherwise the records |
| ForecastData.ForecastModel.ResampleData | custom_components/foxess_em/forecast/forecast_model.py:62-66 | NoDataError exactly while the table is missing or empty; otherwise the table |
| ForecastData.ForecastModel.TotalToday | custom_components/foxess_em/forecast/forecast_model.py:68-74 | fails only without a table; otherwise within 0.005 of the sum over today's rows |
| ForecastData.ForecastModel.TotalTomorrow | custom_components/foxess_em/forecast/forecast_model.py:76-82 | fails only without a table; otherwise within 0.005 of the sum over tomorrow's rows |
| ForecastData.ForecastModel.TotalTodayRemaining | custom_components/foxess_em/forecast/forecast_model.py:84-93 | fails only without a table; otherwise within 0.005 of the sum over today's rows from now, and between 0 and today's total when no estimate is negative |
| ForecastData.Fetched | custom_components/foxess_em/forecast/forecast_model.py:41-42 | the records of each fetched site, in order |
| ForecastData.FetchedAppend | custom_components/foxess_em/forecast/forecast_model.py:41-42 | appending a successful fetch appends its records |
| ForecastData.FirstFailure | custom_components/foxess_em/forecast/forecast_model.py:41-42 | the position of the first failed fetch, every earlier one succeeded |
| ForecastData.FirstFailureAt | custom_components/foxess_em/forecast/forecast_model.py:41-42 | the first failure is where the successes stop |
| ForecastControl.TruncDiv | custom_components/foxess_em/forecast/forecast_controller.py:84-86 | truncation toward zero: for a non-negative dividend the largest multiple not above it, for a negative one the smallest not below it |
| ForecastControl.ApiAvailable | custom_components/foxess_em/forecast/forecast_controller.py:79-86 | fails exactly when the site list fails or holds no site (division by zero); otherwise the allowance less the buffer, over two calls per site, truncated |
| ForecastControl.ExtraTimes | custom_components/foxess_em/forecast/forecast_controller.py:101-105 | n wall-clock times, the i-th being i+1 intervals after the start |
| ForecastControl.ExtraCount | custom_components/foxess_em/forecast/forecast_controller.py:93-99 | extra refreshes are planned only before 18:00 |
| ForecastControl.RefreshPlan | custom_components/foxess_em/forecast/forecast_controller.py:69-105 | a plan exists exactly when the allowance can be computed |
| ForecastControl.RefreshPlanWithinDaylight | custom_components/foxess_em/forecast/forecast_controller.py:89-105 | the plan starts with 06:00, holds one more entry than the extra count, and every entry lies between 06:00 and 18:00 |
| ForecastControl.ExtraInstantWithin | custom_components/foxess_em/forecast/forecast_controller.py:101-104 | each extra refresh instant lies between the later of now and 06:00, and 18:00 |
| ForecastControl.ClockWithin | custom_components/foxess_em/forecast/forecast_controller.py:74-77 | an instant between the later of now and 06:00, and 18:00, reads as a time of day between 06:00 and 18:00 |
| ForecastControl.LateInTheDayOnlyTheMorningRefresh | custom_components/foxess_em/forecast/forecast_controller.py:97-99 | after 18:00 only the 06:00 refresh is planned |
| ForecastControl.RemovedAllStep | custom_components/foxess_em/forecast/forecast_controller.py:110-114 | each further cancelled handle takes its first occurrence off the unload list |
| ForecastControl.RemovedAllCounts | custom_components/foxess_em/forecast/forecast_controller.py:110-114 | clearing removes one occurrence of each cancelled handle from the unload list and keeps every other handle |
| ForecastControl.ForecastController.constructor | custom_components/foxess_em/forecast/forecast_controller.py:29-43 | count 0, allowance 50, no last update, no refresh; the midnight reset is the one unload listener |
| ForecastControl.ForecastController.ResetApiCount | custom_components/foxess_em/forecast/forecast_controller.py:190-192 | the count is 0 and every other field (allowance, last update, listener lists, handles, notifications) is unchanged |
| ForecastControl.CancelAll | custom_components/foxess_em/forecast/forecast_controller.py:110-114 | the loop cancels every handle in order and leaves the unload list of RemovedAll |
| ForecastControl.ForecastController.ClearListeners | custom_components/foxess_em/forecast/forecast_controller.py:107-115 | every refresh handle is cancelled in order and taken off the unload list; the refresh list is emptied |
| ForecastControl.ForecastController.AddRefresh | custom_components/foxess_em/forecast/forecast_controller.py:117-130 | one new handle at the end of both the refresh and the unload lists, for the given time |
| ForecastControl.ForecastController.RegisterPlan | custom_components/foxess_em/forecast/forecast_controller.py:74-105 | after clearing, the refresh times are exactly the plan (none when it fails), each registered with the next fresh handle on both lists; nothing else changes |
| ForecastControl.ForecastController.SetupRefresh | custom_components/foxess_em/forecast/forecast_controller.py:69-105 | the old refreshes are cleared; the new refresh times are exactly the plan, and none when it fails; the new handles are consecutive fresh ones and follow the remaining unload listeners |
| ForecastControl.ForecastController.AddExtraRefreshes | custom_components/foxess_em/forecast/forecast_controller.py:101-105 | the extra refreshes are registered in order, at the planned times, each with a fresh handle appended to both the refresh and the unload lists |
| ForecastControl.ForecastController.GetSiteInfo | custom_components/foxess_em/forecast/forecast_controller.py:166-180 | SiteInfoRead: a failed status read changes no field; otherwise the count and allowance are the reported ones, the old refreshes are cancelled and unlisted, and the new ones are the plan for them with fresh handles; last update and notifications are kept |
| ForecastControl.ForecastController.AsyncRefresh | custom_components/foxess_em/forecast/forecast_controller.py:149-180 | RefreshedFrom: the raw data are the records of the sites fetched before the first failure (kept when there is no site list); after a complete, non-empty fetch the table is the resample of them, the model is ready and the last update is now, otherwise table, flag and last update are kept; the site info is read as in GetSiteInfo; listeners are notified once |
| ForecastControl.ForecastController.Load | custom_components/foxess_em/forecast/forecast_controller.py:44-67 | a cache under a day old is loaded, succeeding iff it holds records, and then the table is its resample, its fetch time is kept, the site info is read and listeners are notified once; a failed load changes nothing else; a stale or absent cache leaves exactly AsyncRefresh's outcome (RefreshedFrom) |
| EnergyIntegration.Contribution | custom_components/foxess_em/util/energy_util.py:10-21 | an interval over an hour contributes nothing; otherwise the starting sample's power times the interval in hours |
| EnergyIntegration.Energy | custom_components/foxess_em/util/energy_util.py:5-23 | fewer than two samples give no energy |
| EnergyIntegration.SumEnergy | custom_components/foxess_em/util/energy_util.py:5-23 | the loop's total is the sum over consecutive pairs of samples |
| EnergyIntegration.EnergySplit | custom_components/foxess_em/util/energy_util.py:9-21 | the total splits at any sample into the intervals before it and those after it |
| EnergyIntegration.EnergyNonNegative | custom_components/foxess_em/util/energy_util.py:9-21 | non-negative power over timestamps that never go back gives non-negative energy |
| EnergyIntegration.EnergyOfConstantPower | custom_components/foxess_em/util/energy_util.py:9-21 | a constant power with no gap over an hour gives that power times the hours from the first sample to the last |
| ChargeWindows.ForceCharge | custom_components/foxess_em/fox/fox_modbus_service.py:58-69 | the first window is on from the start; two windows exactly when start is later than stop, one otherwise |
| ChargeWindows.ForceChargeCovers | custom_components/foxess_em/fox/fox_cloud_service.py:197-230 | a window within a day covers exactly its minutes; a window over midnight covers every minute from start to stop except 00:00; stopping covers nothing |
| FoxModbus.EncodeTimeRoundTrip | custom_components/foxess_em/fox/fox_modbus_service.py:100-102 | the encoding of a valid time decodes back to it, is injective, keeps the order of times, and fits between 0 and 23:59's code |
| FoxModbus.EncodeTime | custom_components/foxess_em/fox/fox_modbus_service.py:100-102 | hour * 256 + minute; its round trip, injectivity and order are EncodeTimeRoundTrip |
| FoxModbus.Registers | custom_components/foxess_em/fox/fox_modbus_service.py:58-74 | six values, one flag and two times per window |
| FoxModbus.RegistersRoundTrip | custom_components/foxess_em/fox/fox_modbus_service.py:58-74 | the six registers read back as the windows written |
| FoxModbus.StartForceCharge | custom_components/foxess_em/fox/fox_modbus_service.py:50-69 | at the first window register: start, 23:59, then 00:01 and stop, both enabled, when start is later than stop; otherwise start and stop with the second window zeroed |
| FoxModbus.StartForceChargeNow | custom_components/foxess_em/fox/fox_modbus_service.py:38-44 | the single window from 00:01 to 23:59 |
| FoxModbus.StopForceCharge | custom_components/foxess_em/fox/fox_modbus_service.py:71-74 | six zeros at the first window register, which read back as both windows off |
| FoxModbus.SetMinSoc | custom_components/foxess_em/fox/fox_modbus_service.py:76-81 | the level, alone, at the minimum state of charge register |
| FoxModbus.SetChargeCurrent | custom_components/foxess_em/fox/fox_modbus_service.py:83-90 | the current in tenths of an amp, alone, at the charge current register |
| FoxModbus.DeviceInfo | custom_components/foxess_em/fox/fox_modbus_service.py:92-98 | fails exactly on a failed or empty read; otherwise whether the day register holds today's day |
| FoxCloud.TruncReal | custom_components/foxess_em/fox/fox_cloud_service.py:138 | truncation toward zero of a float |
| FoxCloud.BuildMinSocQuery | custom_components/foxess_em/fox/fox_cloud_service.py:133-139 | the serial number, the level asked for on grid, and the configured minimum in whole percent, rounded toward zero |
| FoxCloud.BuildStopChargeQuery | custom_components/foxess_em/fox/fox_cloud_service.py:141-166 | both windows off, so no minute is covered |
| FoxCloud.BuildStartSingleChargeQuery | custom_components/foxess_em/fox/fox_cloud_service.py:168-195 | the first window on from start to end, the second off at 00:00 |
| FoxCloud.BuildStartDoubleChargeQuery | custom_components/foxess_em/fox/fox_cloud_service.py:197-230 | the first window on from start to 23:59, the second on from 00:01 to stop |
| FoxCloud.OffPeakQuery | custom_components/foxess_em/fox/fox_cloud_service.py:50-67 | the double query exactly when the off-peak period crosses midnight, else the single one |
| FoxCloud.CloudAndModbusAgree | custom_components/foxess_em/fox/fox_cloud_service.py:50-67 | the cloud's off-peak and stop queries hold the same windows as the Modbus service's register writes |
| FoxCloud.Swallowed | custom_components/foxess_em/fox/fox_cloud_service.py:75-78 | an error other than missing data is raised; missing data is swallowed |
| FoxCloud.FoxCloudService.constructor | custom_components/foxess_em/fox/fox_cloud_service.py:22-36 | the off-peak times and configured minimum kept; no device cached; nothing posted |
| FoxCloud.FoxCloudService.DeviceInfo | custom_components/foxess_em/fox/fox_cloud_service.py:115-124 | a cached device is returned without posting; otherwise the device list is posted, and its first record is cached and returned, or its failure returned, an empty list failing as unexpected |
| FoxCloud.FoxCloudService.LookupSerial | custom_components/foxess_em/fox/fox_cloud_service.py:115-124 | the serial from the cached device, or else from the device list's first record; a failed list is passed on, an empty list or a record without a serial fails as unexpected |
| FoxCloud.FoxCloudService.SerialNumber | custom_components/foxess_em/fox/fox_cloud_service.py:44-45 | the result is the lookup on the cache or the device list, and the device list is posted only when none was cached |
| FoxCloud.FoxCloudService.StartForceChargeOffPeak | custom_components/foxess_em/fox/fox_cloud_service.py:50-78 | after the lookup's posts, a found serial gets exactly the off-peak windows post with only its missing-data failure swallowed; a failed lookup is raised |
| FoxCloud.FoxCloudService.StartForceChargeNow | custom_components/foxess_em/fox/fox_cloud_service.py:38-48 | after the lookup's posts, a found serial gets exactly the single 00:01 to 23:59 window post with only its missing-data failure swallowed; a failed lookup is raised |
| FoxCloud.FoxCloudService.StopForceCharge | custom_components/foxess_em/fox/fox_cloud_service.py:80-92 | after the lookup's posts, a found serial gets exactly the stop post; a missing-data failure of the lookup or the post is swallowed, any other is raised |
| FoxCloud.FoxCloudService.SetMinSoc | custom_components/foxess_em/fox/fox_cloud_service.py:94-107 | after the lookup's posts, a found serial gets exactly the minimum state of charge post; a missing-data failure of the lookup or the post is swallowed, any other is raised |
| FoxCloud.FoxCloudService.SetChargeCurrent | custom_components/foxess_em/fox/fox_cloud_service.py:109-113 | nothing is posted and the cache is kept |

## Left out

- Time zones, daylight saving and `datetime.now()`: instants are whole seconds in one fixed zone, and `now` is passed in.
- Floating point: every quantity is an exact real. Python's `round` is modelled as round-half-even over reals, not over binary floats.
- pandas numerics are not modelled; their results are arguments. This covers the one-second forward fill and per-minute mean of the load history, the forecast's linear interpolation, the five-minute resample of the model's raw data (battery/battery_model.py:52-71), and the time-of-day group-by and merge (battery/battery_model.py:321-336). The merged per-minute frame is an input, and it is required to be sorted by period start, because the walk indexes rows by position after sorting.
- Schedule keys are the eco start instant rather than its ISO string. The string form is injective on instants without a zone, so lookups and housekeeping compare the same way. Writing the schedule back to the host state is not modelled.
- `clear_schedule` (battery/battery_controller.py:149) is not modelled: it calls a `Schedule.clear` that the schedule does not define.
- `average_peak_house_load` (average/average_model.py:142-172) is not modelled: it selects rows with a time-zone-aware `between_time`.
- HTTP and Modbus I/O are not modelled. This covers the Solcast and FoxESS cloud clients, request signing, retries and sleeps, and the pymodbus transport with its lock and signed-register conversion. Their answers (site lists, API status, fetched records, device lists, register reads, post outcomes) are arguments. Outgoing calls are recorded as a log of writes or posts.
- Listener registration on the Home Assistant event loop is not modelled. Listener handles are plain numbers, and cancelling one records it in a list.
- Entity, sensor, switch, number, calendar and configuration-flow plumbing, and the integration's setup wiring, are not part of this model.
- `ChargeOrchestration.ChargeService.EcoStartSetup` takes the forecast controller's refresh as already done: its outcome is part of the inputs.
- `ChargeOrchestration.ChargeService.EcoEnd` follows the code when no battery-level listener is registered: cancelling the missing listener raises, so the handler fails.
- `ChargeOrchestration.ChargeService.EcoStartSetup` follows the code when the plan has no data: the missing-data error aborts the setup, rather than the setup assuming zero charge.
- `ChargeOrchestration.ChargeRate` follows the code for windows shorter than 30 minutes: the hours left are then negative, and so is the computed rate.
- `AverageLoad.HistorySensor.Update` follows the code: the first kept sample is overwritten with a zero at the window start, so a sensor with a single kept sample ends on a zero.
- `BatteryModelling.BatteryModel.RefreshBatteryModel` follows the code: the new model is the kept history followed by the whole merged frame, not only its future rows (battery/battery_model.py:130). The minimum state of charge is only bound on some paths before the walk, so it is an `Option`, and using it unbound fails with `Unexpected`. Schedule writes made before that failure stay in place.
- `AverageLoad.AverageAll` fails with `Unexpected` for a house-load period under one day, where the code divides by zero days and returns an infinite or not-a-number float: reals have no such values. The program always tracks a two-day period (average/average_controller.py:37), so this case is never reached.
- `ForecastData.ForecastModel.Refresh` follows the code when a site fetch fails part way: the records fetched so far stay, and the table and ready flag are kept.
- `BatteryModelling.BatteryModel.BatteryDepletedTime`, `PeakGridImport` and `PeakGridExport` read a missing pandas column as a table in which no row holds a battery (or grid) value, and fail with `Unexpected` where the column lookup raises. The column is created by the first value the walk writes, so this covers a stored model whose walk never ran, such as the unsorted merged frame kept after a failed first refresh (battery/battery_model.py:79-82). A column that exists but has lost every value, because all rows that held one have aged out of the kept history, reads as missing here, while the code answers from it.
- The raw-data, energy and API-count getters that only return a field, and the forecast controller's pass-through totals, are not modelled separately.
